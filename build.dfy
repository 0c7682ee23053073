/** `build_and_pack`: run cargo, collect its messages and walk them once, keeping
    the out dir of every package with a build script and turning every executable
    into an artifact: an `.eap` when it is an app, the executable itself otherwise. */
module Build {
  import opened Wrappers
  import opened Paths
  import opened Errors
  import opened FileSystems
  import opened Protocol
  import opened Resolver
  import opened Packing

  /** What stays fixed during the walk over the messages. */
  datatype Env = Env(targetDir: Path, arch: Architecture, builder: AppBuilder, sdk: Option<Path>)

  /** The state of the walk: the out dirs seen so far (`out_dirs`), the artifacts
      produced so far (`artifacts`) and the filesystem. */
  datatype Acc = Acc(outDirs: map<PackageId, Path>, artifacts: seq<Artifact>, tree: Tree)

  /** Why the walk stopped early, with the filesystem as it was left. */
  datatype Halt = Halt(error: Error, tree: Tree)

  /** The artifacts of a finished walk, or its error, with the filesystem it left. */
  function Outcome(w: Result<Acc, Halt>): Staged<seq<Artifact>>
  {
    match w
    case Ok(s) => Staged(Ok(s.artifacts), s.tree)
    case Err(h) => Staged(Err(h.error), h.tree)
  }

  /** `out_dirs.get(&package_id).cloned()` */
  function Lookup(outDirs: map<PackageId, Path>, id: PackageId): Option<Path>
  {
    if id in outDirs then Some(outDirs[id]) else None
  }

  /** The walk's handling of one message. */
  function Step(env: Env, s: Acc, m: Message): Result<Acc, Halt>
  {
    match m
    case CompilerArtifact(id, manifestPath, executable, target) =>
      if executable.None? then Ok(s)
      else
        var outDir := Lookup(s.outDirs, id);
        if IsApp(s.tree, manifestPath, outDir) then
          var p := Packed(s.tree, env.targetDir, env.arch, target.name, manifestPath, executable.value, outDir, env.builder, env.sdk);
          match p.result
          case Ok(path) => Ok(Acc(s.outDirs, s.artifacts + [Eap(path, target.name)], p.tree))
          case Err(e) => Err(Halt(e, p.tree))
        else Ok(s.(artifacts := s.artifacts + [Exe(executable.value)]))
    case CompilerMessage(_) => Ok(s)
    case BuildFinished(_) => Ok(s)
    case BuildScriptExecuted(id, outDir) => Ok(s.(outDirs := s.outDirs[id := outDir]))
  }

  /** The walk over `ms`, starting from no out dirs, no artifacts and the
      filesystem `t`; the first failure ends it. */
  function Walk(env: Env, ms: seq<Message>, t: Tree): Result<Acc, Halt>
    decreases |ms|
  {
    if ms == [] then Ok(Acc(map[], [], t))
    else
      match Walk(env, ms[..|ms| - 1], t)
      case Err(h) => Err(h)
      case Ok(s) => Step(env, s, ms[|ms| - 1])
  }

  /** Whether `m` is a build-script message for package `id`. */
  predicate ScriptFor(m: Message, id: PackageId)
  {
    m.BuildScriptExecuted? && m.packageId == id
  }

  /** The executables of the compiler-artifact messages in `ms`, in order, each
      with the name of its target. */
  function Executables(ms: seq<Message>): seq<(Path, string)>
  {
    if ms == [] then []
    else
      Executables(ms[..|ms| - 1])
        + match ms[|ms| - 1]
          case CompilerArtifact(_, _, Some(exe), target) => [(exe, target.name)]
          case _ => []
  }

  /** Whether artifact `a` stands for the executable `exe` of target `name`: a plain
      executable keeps the path unchanged, an app carries the target's name. */
  predicate Describes(a: Artifact, exe: Path, name: string)
  {
    match a
    case Exe(p) => p == exe
    case Eap(_, n) => n == name
  }

  /** The walk over one more message is one more step. */
  lemma WalkNext(env: Env, ms: seq<Message>, t: Tree, i: nat)
    requires i < |ms|
    ensures Walk(env, ms[..i + 1], t)
         == match Walk(env, ms[..i], t) case Err(h) => Err(h) case Ok(s) => Step(env, s, ms[i])
  {
    assert ms[..i + 1][..i] == ms[..i];
  }

  /** The end of an aborted walk is final: later messages change nothing. */
  lemma {:induction false} WalkAbortIsFinal(env: Env, ms: seq<Message>, rest: seq<Message>, t: Tree)
    requires Walk(env, ms, t).Err?
    ensures Walk(env, ms + rest, t) == Walk(env, ms, t)
    decreases |rest|
  {
    if rest != [] {
      var rest' := rest[..|rest| - 1];
      assert (ms + rest)[..|ms + rest| - 1] == ms + rest';
      WalkAbortIsFinal(env, ms, rest', t);
    } else {
      assert ms + rest == ms;
    }
  }

  /** A walk that succeeds succeeded on every prefix, and the artifacts of a
      prefix begin the artifacts of the whole. */
  lemma {:induction false} WalkPrefix(env: Env, ms: seq<Message>, t: Tree, k: nat)
    requires k <= |ms| && Walk(env, ms, t).Ok?
    ensures Walk(env, ms[..k], t).Ok?
    ensures Walk(env, ms[..k], t).value.artifacts <= Walk(env, ms, t).value.artifacts
    decreases |ms|
  {
    if k < |ms| {
      var init := ms[..|ms| - 1];
      assert ms[..k] == init[..k];
      WalkPrefix(env, init, t, k);
    } else {
      assert ms[..k] == ms;
    }
  }

  /** One artifact per executable compiler artifact, in message order: a
      non-executable artifact and every other kind of message adds none. */
  lemma {:induction false} WalkArtifacts(env: Env, ms: seq<Message>, t: Tree)
    requires Walk(env, ms, t).Ok?
    ensures var s := Walk(env, ms, t).value; var exes := Executables(ms);
      && |s.artifacts| == |exes|
      && forall i :: 0 <= i < |exes| ==> Describes(s.artifacts[i], exes[i].0, exes[i].1)
    decreases |ms|
  {
    if ms != [] {
      WalkArtifacts(env, ms[..|ms| - 1], t);
    }
  }

  /** Last write wins: after the walk, a package has an out dir iff some
      build-script message named it, and the out dir is the one of the last such
      message. */
  lemma {:induction false} WalkOutDirs(env: Env, ms: seq<Message>, t: Tree, id: PackageId)
    requires Walk(env, ms, t).Ok?
    ensures var s := Walk(env, ms, t).value;
      && (id in s.outDirs <==> exists k :: 0 <= k < |ms| && ScriptFor(ms[k], id))
      && (id in s.outDirs ==>
            exists k :: 0 <= k < |ms| && ms[k] == BuildScriptExecuted(id, s.outDirs[id])
                        && forall j :: k < j < |ms| ==> !ScriptFor(ms[j], id))
    decreases |ms|
  {
    if ms != [] {
      var n := |ms| - 1;
      var init := ms[..n];
      WalkOutDirs(env, init, t, id);
      var s0 := Walk(env, init, t).value;
      var s := Walk(env, ms, t).value;
      assert forall k :: 0 <= k < n ==> ms[k] == init[k];
      if ScriptFor(ms[n], id) {
        assert s.outDirs[id] == ms[n].outDir;
        assert ms[n] == BuildScriptExecuted(id, s.outDirs[id]);
      } else {
        assert Lookup(s.outDirs, id) == Lookup(s0.outDirs, id);
        if id in s.outDirs {
          var k :| 0 <= k < n && init[k] == BuildScriptExecuted(id, s0.outDirs[id])
                   && forall j :: k < j < n ==> !ScriptFor(init[j], id);
          assert ms[k] == BuildScriptExecuted(id, s.outDirs[id]);
        }
      }
    }
  }

  /** The artifact of the executable at message `k` is decided by the state the
      walk reached on the messages before it: the classifier sees the out dir of
      the last earlier build-script message for its package, and an app's path is
      what `pack` returns on the filesystem as it was then. */
  lemma WalkArtifactAt(env: Env, ms: seq<Message>, t: Tree, k: nat)
    requires Walk(env, ms, t).Ok? && k < |ms|
    requires ms[k].CompilerArtifact? && ms[k].executable.Some?
    ensures Walk(env, ms[..k], t).Ok?
    ensures var sk := Walk(env, ms[..k], t).value; var m := ms[k];
      var outDir := Lookup(sk.outDirs, m.packageId);
      && |sk.artifacts| < |Walk(env, ms, t).value.artifacts|
      && var a := Walk(env, ms, t).value.artifacts[|sk.artifacts|];
      && (a.Eap? <==> IsApp(sk.tree, m.manifestPath, outDir))
      && (a.Exe? ==> a.path == m.executable.value)
      && (a.Eap? ==> a.name == m.target.name
                     && Packed(sk.tree, env.targetDir, env.arch, m.target.name, m.manifestPath,
                               m.executable.value, outDir, env.builder, env.sdk).result == Ok(a.path))
  {
    WalkPrefix(env, ms, t, k + 1);
    WalkPrefix(env, ms, t, k);
    assert ms[..k + 1][..k] == ms[..k];
  }

  /** A build-script message sets the out dir of its package, leaves every other
      package's out dir alone, and produces nothing. */
  lemma WalkScriptMessage(env: Env, ms: seq<Message>, t: Tree, id: PackageId, outDir: Path)
    requires Walk(env, ms, t).Ok?
    ensures var s := Walk(env, ms, t).value;
      var m := ms + [BuildScriptExecuted(id, outDir)];
      && Walk(env, m, t).Ok?
      && Walk(env, m, t).value.outDirs[id] == outDir
      && (forall other :: other != id ==> Lookup(Walk(env, m, t).value.outDirs, other) == Lookup(s.outDirs, other))
      && Walk(env, m, t).value.artifacts == s.artifacts
      && Walk(env, m, t).value.tree == s.tree
  {
    assert (ms + [BuildScriptExecuted(id, outDir)])[..|ms|] == ms;
  }

  /** A compiler artifact without an executable, a compiler message and a
      build-finished message change nothing at all, and in particular neither
      classify nor pack anything. */
  lemma WalkInertMessage(env: Env, ms: seq<Message>, t: Tree, m: Message)
    requires (m.CompilerArtifact? && m.executable.None?) || m.CompilerMessage? || m.BuildFinished?
    ensures Walk(env, ms + [m], t) == Walk(env, ms, t)
  {
    assert (ms + [m])[..|ms|] == ms;
  }

  /** The filesystem a step or a walk leaves behind. */
  function TreeAfter(w: Result<Acc, Halt>): Tree
  {
    match w
    case Ok(s) => s.tree
    case Err(h) => h.tree
  }

  /** The body of the loop over the messages: one message against the current
      out dirs, artifacts and filesystem. */
  method Handle(env: Env, m: Message, outDirs: map<PackageId, Path>, artifacts: seq<Artifact>, fs: FileSystem)
    returns (r: Result<Acc, Halt>)
    requires fs.Valid()
    modifies fs
    ensures fs.Valid()
    ensures r == Step(env, Acc(outDirs, artifacts, old(fs.State())), m)
    ensures fs.State() == TreeAfter(r)
  {
    match m {
      case CompilerArtifact(id, manifestPath, executable, target) =>
        if executable.None? {
          return Ok(Acc(outDirs, artifacts, fs.State()));
        }
        var outDir := Lookup(outDirs, id);
        if IsApp(fs.State(), manifestPath, outDir) {
          var path := Pack(fs, env.targetDir, env.arch, target.name, manifestPath, executable.value, outDir, env.builder, env.sdk);
          if path.Err? {
            return Err(Halt(path.error, fs.State()));
          }
          r := Ok(Acc(outDirs, artifacts + [Eap(path.value, target.name)], fs.State()));
        } else {
          r := Ok(Acc(outDirs, artifacts + [Exe(executable.value)], fs.State()));
        }
      case CompilerMessage(_) =>
        r := Ok(Acc(outDirs, artifacts, fs.State()));
      case BuildFinished(_) =>
        r := Ok(Acc(outDirs, artifacts, fs.State()));
      case BuildScriptExecuted(id, outDir) =>
        r := Ok(Acc(outDirs[id := outDir], artifacts, fs.State()));
    }
  }

  /** The loop over the messages, on the filesystem in place. */
  method Accumulate(env: Env, messages: seq<Message>, fs: FileSystem) returns (r: Result<seq<Artifact>, Error>)
    requires fs.Valid()
    modifies fs
    ensures fs.Valid()
    ensures Staged(r, fs.State()) == Outcome(Walk(env, messages, old(fs.State())))
  {
    ghost var t0 := fs.State();
    var outDirs: map<PackageId, Path> := map[];
    var artifacts: seq<Artifact> := [];
    for i := 0 to |messages|
      invariant fs.Valid()
      invariant Walk(env, messages[..i], t0) == Ok(Acc(outDirs, artifacts, fs.State()))
    {
      WalkNext(env, messages, t0, i);
      var next := Handle(env, messages[i], outDirs, artifacts, fs);
      if next.Err? {
        WalkAbortIsFinal(env, messages[..i + 1], messages[i + 1..], t0);
        assert messages[..i + 1] + messages[i + 1..] == messages;
        return Err(next.error.error);
      }
      outDirs, artifacts := next.value.outDirs, next.value.artifacts;
    }
    assert messages[..|messages|] == messages;
    r := Ok(artifacts);
  }

  /** The whole of `build_and_pack`: cargo's outcome (its output lines, or why it
      failed), the metadata query's outcome (the target directory, or why it
      failed), then the walk over the decoded messages. */
  function BuildOutcome(arch: Architecture, cargo: Result<seq<LineRead>, string>, decode: Decoder,
                        metadata: Result<Path, string>, builder: AppBuilder, sdk: Option<Path>, t: Tree): Staged<seq<Artifact>>
  {
    match cargo
    case Err(m) => Staged(Err(Cargo(m)), t)
    case Ok(lines) =>
      match metadata
      case Err(m) => Staged(Err(Metadata(m)), t)
      case Ok(targetDir) =>
        Outcome(Walk(Env(targetDir, arch, builder, sdk), Parsed(lines, decode), t))
  }

  /** `build_and_pack`. Passing `--target` among the extra arguments is a misuse the
      source stops with an assertion: the driver chooses the target itself. */
  method BuildAndPack(arch: Architecture, args: seq<string>, cargo: Result<seq<LineRead>, string>, decode: Decoder,
                      metadata: Result<Path, string>, builder: AppBuilder, sdk: Option<Path>, fs: FileSystem)
    returns (r: Result<seq<Artifact>, Error>)
    requires "--target" !in args
    requires fs.Valid()
    modifies fs
    ensures fs.Valid()
    ensures var s := BuildOutcome(arch, cargo, decode, metadata, builder, sdk, old(fs.State()));
      r == s.result && fs.State() == s.tree
  {
    if cargo.Err? {
      return Err(Cargo(cargo.error));
    }
    var messages := CollectMessages(cargo.value, decode);
    if metadata.Err? {
      return Err(Metadata(metadata.error));
    }
    r := Accumulate(Env(metadata.value, arch, builder, sdk), messages, fs);
  }
}
