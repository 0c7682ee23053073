/** The messages cargo prints with `--message-format json-render-diagnostics`, the
    artifacts the driver produces, and the callback that turns cargo's output lines
    into messages. */
module Protocol {
  import opened Wrappers
  import opened Paths

  type PackageId = string

  datatype Target = Target(name: string)

  datatype Message =
    | CompilerArtifact(packageId: PackageId, manifestPath: Path, executable: Option<Path>, target: Target)
    | CompilerMessage(message: string)
    | BuildFinished(success: bool)
    | BuildScriptExecuted(packageId: PackageId, outDir: Path)

  /** What `build_and_pack` returns per executable: a packaged app or the
      executable left as it is. */
  datatype Artifact =
    | Eap(path: Path, name: string)
    | Exe(path: Path)

  /** One line of cargo's standard output as the callback receives it: the text,
      or the error that kept the line from being read. */
  type LineRead = Result<string, string>

  /** The line decoder (`serde_json::from_str::<JsonMessage>`), taken as given. */
  type Decoder = string -> Option<Message>

  /** The messages the callback keeps: one per line that was read and decoded,
      in the order of the lines. */
  function Parsed(lines: seq<LineRead>, decode: Decoder): (r: seq<Message>)
    ensures |r| <= |lines|
  {
    if lines == [] then []
    else Parsed(lines[..|lines| - 1], decode) + ParsedLine(lines[|lines| - 1], decode)
  }

  /** The messages kept from a single line: its message if it was read and decoded. */
  function ParsedLine(line: LineRead, decode: Decoder): seq<Message>
  {
    match line
    case Ok(l) => (match decode(l) case Some(m) => [m] case None => [])
    case Err(_) => []
  }

  /** Every kept message is the decoding of a line that was read. */
  lemma {:induction false} ParsedSound(lines: seq<LineRead>, decode: Decoder)
    ensures forall m | m in Parsed(lines, decode) :: exists l :: Ok(l) in lines && decode(l) == Some(m)
    decreases |lines|
  {
    if lines != [] {
      var init := lines[..|lines| - 1];
      ParsedSound(init, decode);
      forall m | m in Parsed(lines, decode)
        ensures exists l :: Ok(l) in lines && decode(l) == Some(m)
      {
        if m in Parsed(init, decode) {
          var l :| Ok(l) in init && decode(l) == Some(m);
          assert Ok(l) in lines;
        } else {
          assert Ok(lines[|lines| - 1].value) in lines;
        }
      }
    }
  }

  /** Decoding works line by line: the messages of two stretches of output are
      the messages of the first followed by those of the second. */
  lemma {:induction false} ParsedAppend(xs: seq<LineRead>, ys: seq<LineRead>, decode: Decoder)
    ensures Parsed(xs + ys, decode) == Parsed(xs, decode) + Parsed(ys, decode)
    decreases |ys|
  {
    if ys == [] {
      assert xs + ys == xs;
    } else {
      var ys' := ys[..|ys| - 1];
      assert (xs + ys)[..|xs + ys| - 1] == xs + ys';
      ParsedAppend(xs, ys', decode);
    }
  }

  /** A line that cannot be read or decoded between two decodable lines costs
      neither of them its message. */
  lemma ResilientDecode(a: string, bad: LineRead, c: string, decode: Decoder, ma: Message, mc: Message)
    requires decode(a) == Some(ma) && decode(c) == Some(mc)
    requires bad.Err? || decode(bad.value).None?
    ensures Parsed([Ok(a), bad, Ok(c)], decode) == [ma, mc]
  {
    var lines: seq<LineRead> := [Ok(a), bad, Ok(c)];
    assert lines[..2] == [Ok(a), bad];
    assert lines[..2][..1] == [Ok(a)];
    assert lines[..2][..1][..0] == [];
    assert Parsed(lines[..2][..1], decode) == [ma];
    assert Parsed(lines[..2], decode) == [ma];
  }

  /** The callback of `run_with_processed_stdout`, run over every line in turn:
      decoded lines are pushed onto `messages`, the others are dropped. */
  method CollectMessages(lines: seq<LineRead>, decode: Decoder) returns (messages: seq<Message>)
    ensures messages == Parsed(lines, decode)
  {
    messages := [];
    for i := 0 to |lines|
      invariant messages == Parsed(lines[..i], decode)
    {
      assert lines[..i + 1][..i] == lines[..i];
      match lines[i] {
        case Ok(line) =>
          match decode(line) {
            case Some(message) => messages := messages + [message];
            case None =>
          }
        case Err(_) =>
      }
    }
    assert lines[..|lines|] == lines;
  }
}
