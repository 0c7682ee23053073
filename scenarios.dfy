/** Whole-pipeline consequences of the model for the three typical builds: an app
    found through its manifest dir, a plain executable, and a license found in
    two places. */
module Scenarios {
  import opened Wrappers
  import opened Paths
  import opened Errors
  import opened FileSystems
  import opened Protocol
  import opened Resolver
  import opened Packing
  import opened Build

  /** A package with `manifest.json` and `LICENSE` next to its `Cargo.toml`, no
      build script and no optional resources becomes one `.eap`, named after its
      target, at the path the builder returns for the staged inputs. */
  lemma AppScenario(arch: Architecture, line: string, decode: Decoder, targetDir: Path, builder: AppBuilder,
                    sdk: Option<Path>, t: Tree, id: PackageId, manifestPath: Path, exe: Path, target: Target, eap: Path)
    requires decode(line) == Some(CompilerArtifact(id, manifestPath, Some(exe), target))
    requires Parent(manifestPath).Some? && FileName(exe).Some?
    requires var md := Parent(manifestPath).value;
      && t.IsFile(Join(md, ManifestFile)) && t.IsFile(Join(md, LicenseFile))
      && !t.Exists(Join(md, AdditionalFilesDir)) && !t.Exists(Join(md, LibDir)) && !t.Exists(Join(md, HtmlDir))
    requires t.IsDir(StagingRoot(targetDir, arch))
    requires !t.IsDir(Join(StagingRoot(targetDir, arch), FileName(exe).value))
    requires var md := Parent(manifestPath).value;
      var inputs := BundleInputs(Join(StagingRoot(targetDir, arch), FileName(exe).value), arch, target.name,
                                 Join(md, ManifestFile), exe, Join(md, LicenseFile), None, None, None);
      builder.open(inputs).None? && builder.build(inputs, sdk) == Ok(eap)
    ensures BuildOutcome(arch, Ok([Ok(line)]), decode, Ok(targetDir), builder, sdk, t)
         == Staged(Ok([Eap(eap, target.name)]), t)
  {
    var m := CompilerArtifact(id, manifestPath, Some(exe), target);
    var lines: seq<LineRead> := [Ok(line)];
    assert Parsed(lines, decode) == [m] by {
      assert lines[..0] == [];
    }
    assert [m][..0] == [];
    assert IsApp(t, manifestPath, None);
    PackWithoutOutDir(t, targetDir, arch, target.name, manifestPath, exe, builder, sdk, eap);
    var env := Env(targetDir, arch, builder, sdk);
    var s0 := Acc(map[], [], t);
    assert Walk(env, [], t) == Ok(s0);
    assert Lookup(s0.outDirs, id) == None;
    assert Step(env, s0, m) == Ok(Acc(s0.outDirs, s0.artifacts + [Eap(eap, target.name)], t));
    assert s0.artifacts + [Eap(eap, target.name)] == [Eap(eap, target.name)];
  }

  /** `pack` for such a package, with the staging directory in place: the
      filesystem stays as it is and the result is the builder's path. */
  lemma PackWithoutOutDir(t: Tree, targetDir: Path, arch: Architecture, name: string, manifestPath: Path,
                          exe: Path, builder: AppBuilder, sdk: Option<Path>, eap: Path)
    requires Parent(manifestPath).Some? && FileName(exe).Some?
    requires var md := Parent(manifestPath).value;
      && t.Exists(Join(md, ManifestFile)) && t.Exists(Join(md, LicenseFile))
      && !t.Exists(Join(md, AdditionalFilesDir)) && !t.Exists(Join(md, LibDir)) && !t.Exists(Join(md, HtmlDir))
    requires t.IsDir(StagingRoot(targetDir, arch))
    requires !t.IsDir(Join(StagingRoot(targetDir, arch), FileName(exe).value))
    requires var md := Parent(manifestPath).value;
      var inputs := BundleInputs(Join(StagingRoot(targetDir, arch), FileName(exe).value), arch, name,
                                 Join(md, ManifestFile), exe, Join(md, LicenseFile), None, None, None);
      builder.open(inputs).None? && builder.build(inputs, sdk) == Ok(eap)
    ensures Packed(t, targetDir, arch, name, manifestPath, exe, None, builder, sdk) == Staged(Ok(eap), t)
  {
    var md := Parent(manifestPath).value;
    var dest := Join(StagingRoot(targetDir, arch), FileName(exe).value);
    assert Staging(t, targetDir, arch, exe) == Staged(Ok(dest), t);
    NoOutDirNeverAmbiguous(t, md, ManifestFile);
    NoOutDirNeverAmbiguous(t, md, LicenseFile);
    NoOutDirNeverAmbiguous(t, md, AdditionalFilesDir);
    NoOutDirNeverAmbiguous(t, md, LibDir);
    NoOutDirNeverAmbiguous(t, md, HtmlDir);
    assert Assemble(t, dest, arch, name, manifestPath, exe, None, builder, sdk) == Ok(eap);
  }

  /** An executable with `manifest.json` in neither place stays a plain executable
      with its path unchanged, and the filesystem is not touched. */
  lemma PlainExecutableScenario(arch: Architecture, line: string, decode: Decoder, targetDir: Path, builder: AppBuilder,
                                sdk: Option<Path>, t: Tree, id: PackageId, manifestPath: Path, exe: Path, target: Target)
    requires decode(line) == Some(CompilerArtifact(id, manifestPath, Some(exe), target))
    requires Parent(manifestPath).Some? ==> !t.IsFile(Join(Parent(manifestPath).value, ManifestFile))
    ensures BuildOutcome(arch, Ok([Ok(line)]), decode, Ok(targetDir), builder, sdk, t)
         == Staged(Ok([Exe(exe)]), t)
  {
    var m := CompilerArtifact(id, manifestPath, Some(exe), target);
    var lines: seq<LineRead> := [Ok(line)];
    assert Parsed(lines, decode) == [m] by {
      assert lines[..0] == [];
    }
    assert [m][..0] == [];
    assert !IsApp(t, manifestPath, None);
    var env := Env(targetDir, arch, builder, sdk);
    var s0 := Acc(map[], [], t);
    assert Walk(env, [], t) == Ok(s0);
    assert Lookup(s0.outDirs, id) == None;
    assert Step(env, s0, m) == Ok(s0.(artifacts := s0.artifacts + [Exe(exe)]));
    assert s0.artifacts + [Exe(exe)] == [Exe(exe)];
  }

  /** A `LICENSE` in both the manifest dir and the out dir announced earlier by
      the package's build script fails the whole build with an ambiguity error
      naming `LICENSE` and both directories, and no artifact is produced. */
  lemma AmbiguousLicenseScenario(env: Env, t: Tree, id: PackageId, manifestPath: Path, outDir: Path,
                                 exe: Path, target: Target)
    requires Parent(manifestPath).Some? && FileName(exe).Some?
    requires var md := Parent(manifestPath).value;
      && t.IsFile(Join(md, ManifestFile)) && !t.Exists(Join(outDir, ManifestFile))
      && t.Exists(Join(md, LicenseFile)) && t.Exists(Join(outDir, LicenseFile))
    requires t.IsDir(StagingRoot(env.targetDir, env.arch))
    requires !t.IsDir(Join(StagingRoot(env.targetDir, env.arch), FileName(exe).value))
    ensures Walk(env, [BuildScriptExecuted(id, outDir), CompilerArtifact(id, manifestPath, Some(exe), target)], t)
         == Err(Halt(Ambiguous(LicenseFile, Parent(manifestPath).value, Some(outDir)), t))
  {
    var ms := [BuildScriptExecuted(id, outDir), CompilerArtifact(id, manifestPath, Some(exe), target)];
    var md := Parent(manifestPath).value;
    assert ms[..1] == [BuildScriptExecuted(id, outDir)];
    assert ms[..1][..0] == [];
    var s1 := Acc(map[id := outDir], [], t);
    assert Walk(env, ms[..1], t) == Ok(s1);
    assert IsApp(t, manifestPath, Some(outDir));
    var staged := Staging(t, env.targetDir, env.arch, exe);
    assert staged.tree == t;
    assert ExactlyOne(t, md, Some(outDir), ManifestFile) == Ok(Join(md, ManifestFile));
    assert ExactlyOne(t, md, Some(outDir), LicenseFile) == Err(Ambiguous(LicenseFile, md, Some(outDir)));
  }
}
