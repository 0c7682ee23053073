/** Where an app's resources are looked for: the directory of the package's
    `Cargo.toml` and, when the package has a build script, its out dir. */
module Resolver {
  import opened Wrappers
  import opened Paths
  import opened Errors
  import opened FileSystems

  const ManifestFile: Component := "manifest.json"
  const LicenseFile: Component := "LICENSE"
  const AdditionalFilesDir: Component := "additional-files"
  const LibDir: Component := "lib"
  const HtmlDir: Component := "html"

  /** The two places `fileName` may be, manifest dir first; a missing out dir
      contributes no candidate. */
  function Candidates(manifestDir: Path, outDir: Option<Path>, fileName: Component): seq<Path>
  {
    [Join(manifestDir, fileName)] + match outDir case Some(d) => [Join(d, fileName)] case None => []
  }

  /** The candidates that exist, in order. */
  function Present(t: Tree, candidates: seq<Path>): (r: seq<Path>)
    ensures |r| <= |candidates|
    ensures forall c :: c in r <==> c in candidates && t.Exists(c)
  {
    if candidates == [] then []
    else (if t.Exists(candidates[0]) then [candidates[0]] else []) + Present(t, candidates[1..])
  }

  /** `exactly_one`: the resource must exist in exactly one of the two places.
      Neither is `Missing`, both is `Ambiguous`, whichever is first. */
  function ExactlyOne(t: Tree, manifestDir: Path, outDir: Option<Path>, fileName: Component): (r: Result<Path, Error>)
    ensures var found := Present(t, Candidates(manifestDir, outDir, fileName));
      && (r.Ok? <==> |found| == 1)
      && (r.Ok? ==> found == [r.value])
      && (r.Err? ==> r.error == if found == [] then Missing(fileName, manifestDir, outDir)
                                else Ambiguous(fileName, manifestDir, outDir))
  {
    var manifestFile := Join(manifestDir, fileName);
    var outFile := match outDir case Some(d) => Some(Join(d, fileName)) case None => None;
    match (t.Exists(manifestFile), outFile.Some? && t.Exists(outFile.value))
    case (false, false) => Err(Missing(fileName, manifestDir, outDir))
    case (false, true) => Ok(outFile.value)
    case (true, false) => Ok(manifestFile)
    case (true, true) => Err(Ambiguous(fileName, manifestDir, outDir))
  }

  /** `at_most_one`: like `exactly_one`, except that a resource found nowhere is
      reported as absent instead of as an error. */
  function AtMostOne(t: Tree, manifestDir: Path, outDir: Option<Path>, fileName: Component): (r: Result<Option<Path>, Error>)
    ensures var found := Present(t, Candidates(manifestDir, outDir, fileName));
      && (r.Ok? <==> |found| <= 1)
      && (r.Ok? ==> r.value == if found == [] then None else Some(found[0]))
      && (r.Err? ==> r.error == Ambiguous(fileName, manifestDir, outDir))
  {
    var manifestFile := Join(manifestDir, fileName);
    var outFile := match outDir case Some(d) => Some(Join(d, fileName)) case None => None;
    match (t.Exists(manifestFile), outFile.Some? && t.Exists(outFile.value))
    case (false, false) => Ok(None)
    case (false, true) => Ok(Some(outFile.value))
    case (true, false) => Ok(Some(manifestFile))
    case (true, true) => Err(Ambiguous(fileName, manifestDir, outDir))
  }

  /** The places `is_app` looks for `manifest.json`: the manifest's parent, if it
      has one, and the out dir, if there is one. */
  function MarkerLocations(manifestPath: Path, outDir: Option<Path>): seq<Path>
  {
    (match Parent(manifestPath) case Some(d) => [Join(d, ManifestFile)] case None => [])
      + (match outDir case Some(d) => [Join(d, ManifestFile)] case None => [])
  }

  /** `is_app`: the package becomes an app iff `manifest.json` is a regular file in
      one of the places it is looked for. */
  function IsApp(t: Tree, manifestPath: Path, outDir: Option<Path>): (r: bool)
    ensures r <==> exists c :: c in MarkerLocations(manifestPath, outDir) && t.IsFile(c)
  {
    if Parent(manifestPath).Some? && t.IsFile(Join(Parent(manifestPath).value, ManifestFile)) then true
    else if outDir.Some? && t.IsFile(Join(outDir.value, ManifestFile)) then true
    else false
  }

  /** The two resolvers differ only where the resource is found nowhere. */
  lemma AtMostOneAgreesWithExactlyOne(t: Tree, manifestDir: Path, outDir: Option<Path>, fileName: Component)
    ensures match ExactlyOne(t, manifestDir, outDir, fileName)
            case Ok(p) => AtMostOne(t, manifestDir, outDir, fileName) == Ok(Some(p))
            case Err(Missing(_, _, _)) => AtMostOne(t, manifestDir, outDir, fileName) == Ok(None)
            case Err(e) => AtMostOne(t, manifestDir, outDir, fileName) == Err(e)
  {
  }

  /** Without an out dir the manifest dir alone decides, and nothing is ambiguous. */
  lemma NoOutDirNeverAmbiguous(t: Tree, manifestDir: Path, fileName: Component)
    ensures ExactlyOne(t, manifestDir, None, fileName)
         == if t.Exists(Join(manifestDir, fileName)) then Ok(Join(manifestDir, fileName))
            else Err(Missing(fileName, manifestDir, None))
    ensures AtMostOne(t, manifestDir, None, fileName)
         == if t.Exists(Join(manifestDir, fileName)) then Ok(Some(Join(manifestDir, fileName))) else Ok(None)
  {
  }

  /** There is no precedence rule: a resource in both places is an error even when
      the two places are one and the same directory. */
  lemma BothIsAmbiguous(t: Tree, manifestDir: Path, outDir: Path, fileName: Component)
    requires t.Exists(Join(manifestDir, fileName)) && t.Exists(Join(outDir, fileName))
    ensures ExactlyOne(t, manifestDir, Some(outDir), fileName) == Err(Ambiguous(fileName, manifestDir, Some(outDir)))
    ensures AtMostOne(t, manifestDir, Some(outDir), fileName) == Err(Ambiguous(fileName, manifestDir, Some(outDir)))
  {
  }

  /** A package classified as an app never fails to find its `manifest.json` as missing. */
  lemma IsAppFindsManifest(t: Tree, manifestPath: Path, outDir: Option<Path>)
    requires IsApp(t, manifestPath, outDir) && Parent(manifestPath).Some?
    ensures ExactlyOne(t, Parent(manifestPath).value, outDir, ManifestFile).Ok?
         || ExactlyOne(t, Parent(manifestPath).value, outDir, ManifestFile).error.Ambiguous?
  {
  }

  /** The classifier asks for a regular file while the resolver accepts anything
      that exists: in a well-formed tree, a manifest the resolver finds for a
      package that is not an app is a directory. */
  lemma NotAppManifestIsDirectory(t: Tree, manifestPath: Path, outDir: Option<Path>)
    requires t.WellFormed() && Parent(manifestPath).Some? && !IsApp(t, manifestPath, outDir)
    requires ExactlyOne(t, Parent(manifestPath).value, outDir, ManifestFile).Ok?
    ensures t.IsDir(ExactlyOne(t, Parent(manifestPath).value, outDir, ManifestFile).value)
  {
  }
}
