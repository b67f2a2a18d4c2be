/** `protool.command_line`: the four sub-commands, each turning the
    parsed arguments into what is printed and the exit status. */
module CommandLine {
  import opened Wrappers
  import opened Plist
  import opened Protool
  import opened ProfileDiff

  /** The parsed arguments. An attribute the sub-command's parser does not
      define is `None`; `keep_original_order` is defined by the `diff`
      parser only, and `subcommand` is missing when none was given. */
  datatype Namespace = Namespace(
    subcommand: Option<string>,
    profiles: seq<string>,
    gitArgs: seq<string>,
    ignore: Option<seq<string>>,
    tool: Option<string>,
    keepOriginalOrder: Option<bool>,
    profile: string,
    key: string)

  /** Why a handler gave up: an exception from the library, a missing
      attribute of the namespace, or an index past the end of a list. */
  datatype Failure = LibraryError(error: Error) | MissingAttribute(name: string) | IndexOutOfRange

  /** The messages printed to standard error. */
  datatype Diagnostic =
    | CouldNotDiff(reason: Failure)
    | CouldNotReadFile(error: Error)
    | UnableToSerialize
    | CouldNotDecode(error: Error)

  /** A run of a handler: exit status, lines on standard output, messages
      on standard error. */
  datatype Output = Output(status: int, stdout: seq<string>, stderr: seq<Diagnostic>)

  /** How Python prints what the library cannot: `str` of an `int` and of a
      `float`, `datetime.isoformat()`, `json.dumps` of a serialisable
      value, and the parser's help text. */
  datatype Console = Console(
    showInt: int -> string,
    showReal: real -> string,
    isoFormat: int -> string,
    json: Value -> string,
    help: string)

  const ExpectedTwoProfiles: string := "Expected 2 profiles for diff command"
  const UnrecognizedCommand: string := "Unrecognized command"

  /** A successful run prints the result; a failed one prints why. */
  function DiffReport(d: Result<string, Error>): (o: Output)
    ensures o.status == 0 <==> d.Ok?
    ensures d.Ok? ==> o == Output(0, [d.value], [])
    ensures d.Err? ==> o == Output(1, [], [CouldNotDiff(LibraryError(d.error))])
  {
    if d.Ok? then Output(0, [d.value], []) else Output(1, [], [CouldNotDiff(LibraryError(d.error))])
  }

  // ----- diff ---------------------------------------------------------------

  /** What `_handle_diff` does: anything but two profiles is refused before
      any is loaded; otherwise the two are diffed, keys sorted unless the
      original order is kept. */
  function DiffCommandOutput(env: Environment, args: Namespace): (o: Output)
    ensures o.status in {0, 1}
  {
    if |args.profiles| != 2 then Output(1, [ExpectedTwoProfiles], [])
    else if args.keepOriginalOrder.None? then Output(1, [], [CouldNotDiff(MissingAttribute("keep_original_order"))])
    else DiffReport(DiffOutcome(env, args.profiles[0], args.profiles[1],
                                !args.keepOriginalOrder.value, args.ignore, args.tool))
  }

  /** The arity check comes first: with anything but two profiles nothing
      is loaded, so the outcome is the same whatever the environment. */
  lemma WrongArityLoadsNothing(env1: Environment, env2: Environment, args: Namespace)
    requires |args.profiles| != 2
    ensures DiffCommandOutput(env1, args) == DiffCommandOutput(env2, args)
    ensures DiffCommandOutput(env1, args).status == 1
  {
  }

  /** With two profiles and the `diff` parser's flag, the first profile is
      diffed against the second, keys sorted exactly when the original
      order is not kept, and the command exits 0 exactly when that diff
      succeeds, printing its result. */
  lemma DiffOfTwoProfiles(env: Environment, args: Namespace)
    requires |args.profiles| == 2 && args.keepOriginalOrder.Some?
    ensures var d := DiffOutcome(env, args.profiles[0], args.profiles[1],
                                 !args.keepOriginalOrder.value, args.ignore, args.tool);
      && DiffCommandOutput(env, args) == DiffReport(d)
      && (DiffCommandOutput(env, args).status == 0 <==> d.Ok?)
      && (d.Ok? ==> DiffCommandOutput(env, args).stdout == [d.value])
  {
  }

  /** `_handle_diff`. */
  method HandleDiff(env: Environment, args: Namespace) returns (o: Output)
    ensures o == DiffCommandOutput(env, args)
  {
    if |args.profiles| != 2 {
      return Output(1, [ExpectedTwoProfiles], []);
    }
    if args.keepOriginalOrder.None? {
      return Output(1, [], [CouldNotDiff(MissingAttribute("keep_original_order"))]);
    }
    var d := Diff(env, args.profiles[0], args.profiles[1], !args.keepOriginalOrder.value,
                  args.ignore, args.tool);
    o := DiffReport(d);
  }

  // ----- gitdiff ------------------------------------------------------------

  /** `_handle_git_diff` as written: the arguments of the call are
      evaluated in order, `git_args[1]`, `git_args[4]`, then
      `keep_original_order`, which the `gitdiff` parser never defines. */
  function GitDiffAsWrittenOutput(env: Environment, args: Namespace): Output {
    if |args.gitArgs| <= 4 then Output(1, [], [CouldNotDiff(IndexOutOfRange)])
    else if args.keepOriginalOrder.None? then Output(1, [], [CouldNotDiff(MissingAttribute("keep_original_order"))])
    else DiffReport(DiffOutcome(env, args.gitArgs[1], args.gitArgs[4],
                                !args.keepOriginalOrder.value, args.ignore, args.tool))
  }

  /** The namespaces the `gitdiff` parser produces: seven git arguments and
      no `keep_original_order`. */
  predicate FromGitDiffParser(args: Namespace) {
    args.subcommand == Some("gitdiff") && |args.gitArgs| == 7 && args.keepOriginalOrder.None?
  }

  /** As written, `gitdiff` fails on every input its parser accepts,
      before any profile is loaded. */
  lemma GitDiffAsWrittenAlwaysFails(env: Environment, args: Namespace)
    requires FromGitDiffParser(args)
    ensures GitDiffAsWrittenOutput(env, args)
         == Output(1, [], [CouldNotDiff(MissingAttribute("keep_original_order"))])
  {
  }

  /** `_handle_git_diff` as written. */
  method HandleGitDiffAsWritten(env: Environment, args: Namespace) returns (o: Output)
    ensures o == GitDiffAsWrittenOutput(env, args)
  {
    if |args.gitArgs| <= 4 {
      return Output(1, [], [CouldNotDiff(IndexOutOfRange)]);
    }
    var a, b := args.gitArgs[1], args.gitArgs[4];
    if args.keepOriginalOrder.None? {
      return Output(1, [], [CouldNotDiff(MissingAttribute("keep_original_order"))]);
    }
    var d := Diff(env, a, b, !args.keepOriginalOrder.value, args.ignore, args.tool);
    o := DiffReport(d);
  }

  /** The intended `gitdiff`: git's external-diff arguments are the path,
      the old file, its hash and mode, then the new file; the old and the
      new file are diffed, keys sorted unless the original order is
      explicitly kept. */
  function GitDiffOutput(env: Environment, args: Namespace): (o: Output)
    ensures o.status in {0, 1}
  {
    if |args.gitArgs| <= 4 then Output(1, [], [CouldNotDiff(IndexOutOfRange)])
    else
      var keep := args.keepOriginalOrder.Some? && args.keepOriginalOrder.value;
      DiffReport(DiffOutcome(env, args.gitArgs[1], args.gitArgs[4], !keep, args.ignore, args.tool))
  }

  /** The intended `gitdiff` diffs the old file against the new one, with
      sorted keys, on every input its parser accepts. */
  lemma GitDiffComparesOldAndNew(env: Environment, args: Namespace)
    requires FromGitDiffParser(args)
    ensures GitDiffOutput(env, args)
         == DiffReport(DiffOutcome(env, args.gitArgs[1], args.gitArgs[4], true, args.ignore, args.tool))
  {
  }

  /** The corrected `_handle_git_diff`. */
  method HandleGitDiff(env: Environment, args: Namespace) returns (o: Output)
    ensures o == GitDiffOutput(env, args)
  {
    if |args.gitArgs| <= 4 {
      return Output(1, [], [CouldNotDiff(IndexOutOfRange)]);
    }
    var keep := args.keepOriginalOrder.Some? && args.keepOriginalOrder.value;
    var d := Diff(env, args.gitArgs[1], args.gitArgs[4], !keep, args.ignore, args.tool);
    o := DiffReport(d);
  }

  // ----- read ---------------------------------------------------------------

  /** What `_handle_read` prints for the looked-up value: a string, an
      integer or a float as itself (a boolean is none of these: its type
      is `bool`), a date in ISO form, anything else as JSON (`null` for a
      missing key), and a failure when JSON cannot encode it. */
  function ReadOutput(console: Console, r: Result<Option<Value>, Error>): Output {
    if r.Err? then Output(1, [], [CouldNotReadFile(r.error)])
    else if r.value.None? then Output(0, ["null"], [])
    else match r.value.value
      case Str(s) => Output(0, [s], [])
      case Integer(i) => Output(0, [console.showInt(i)], [])
      case Real(x) => Output(0, [console.showReal(x)], [])
      case Date(t) => Output(0, [console.isoFormat(t)], [])
      case v => if JsonSafe(v) then Output(0, [console.json(v)], []) else Output(1, [], [UnableToSerialize])
  }

  /** `read` succeeds exactly when the profile loads and the value is
      missing, a date, or made of what JSON can encode; it then prints one
      line, and otherwise one diagnostic. */
  lemma ReadSucceedsIff(console: Console, r: Result<Option<Value>, Error>)
    ensures var o := ReadOutput(console, r);
      && o.status in {0, 1}
      && (o.status == 0 <==> r.Ok? && (r.value.None? || r.value.value.Date? || JsonSafe(r.value.value)))
      && (o.status == 0 ==> |o.stdout| == 1 && o.stderr == [])
      && (o.status == 1 ==> o.stdout == [] && |o.stderr| == 1)
  {
  }

  /** A value holding raw bytes or a date anywhere below the top level
      (the `DeveloperCertificates` list, say) cannot be printed. */
  lemma ReadOfNestedBytesFails(console: Console, v: Value, path: seq<Step>, leaf: Value)
    requires |path| > 0 && (leaf.Data? || leaf.Date?) && Reaches(v, path, leaf)
    ensures ReadOutput(console, Ok(Some(v))) == Output(1, [], [UnableToSerialize])
  {
    NestedUnsafeIsUnsafe(v, path, leaf);
    assert !v.Date? by {
      assert path[0].Key? ==> v.Dict?;
      assert path[0].Index? ==> v.Array?;
    }
  }

  /** What `value_for_key` returns, as a value. */
  function Lookup(env: Environment, path: string, key: string): Result<Option<Value>, Error> {
    var l := ReadProfile(env, env.absPath(path), true);
    if l.Err? then Err(l.error) else Ok(Get(l.value.contents, key))
  }

  /** `_handle_read`. */
  method HandleRead(env: Environment, console: Console, args: Namespace) returns (o: Output)
    ensures o == ReadOutput(console, Lookup(env, args.profile, args.key))
  {
    var value := ValueForKey(env, args.profile, args.key);
    if value.Err? {
      return Output(1, [], [CouldNotReadFile(value.error)]);
    }
    if value.value.Some? && (value.value.value.Str? || value.value.value.Integer? || value.value.value.Real?) {
      var line := match value.value.value
        case Str(s) => s
        case Integer(i) => console.showInt(i)
        case Real(x) => console.showReal(x)
        case _ => "";
      return Output(0, [line], []);
    }
    if value.value.Some? && value.value.value.Date? {
      return Output(0, [console.isoFormat(value.value.value.instant)], []);
    }
    if value.value.None? {
      o := Output(0, ["null"], []);
    } else if JsonSafe(value.value.value) {
      o := Output(0, [console.json(value.value.value)], []);
    } else {
      o := Output(1, [], [UnableToSerialize]);
    }
  }

  // ----- decode -------------------------------------------------------------

  /** What `_handle_decode` prints: the profile's sorted-key XML. */
  function DecodeOutput(env: Environment, args: Namespace): Output {
    var l := ReadProfile(env, env.absPath(args.profile), true);
    if l.Err? then Output(1, [], [CouldNotDecode(l.error)]) else Output(0, [l.value.xml], [])
  }

  /** `decode` prints text that reads back as the profile's contents. */
  lemma DecodePrintsContents(env: Environment, args: Namespace)
    requires CodecRoundTrips(env)
    ensures var o := DecodeOutput(env, args);
      && (o.status == 0 <==> ReadProfile(env, env.absPath(args.profile), true).Ok?)
      && (o.status == 0 ==>
            && |o.stdout| == 1
            && env.loads(o.stdout[0]) == Some(Dict(ReadProfile(env, env.absPath(args.profile), true).value.contents)))
  {
    if ReadProfile(env, env.absPath(args.profile), true).Ok? {
      LoadedXmlMatchesContents(env, env.absPath(args.profile), true);
    }
  }

  /** `_handle_decode`. */
  method HandleDecode(env: Environment, args: Namespace) returns (o: Output)
    ensures o == DecodeOutput(env, args)
  {
    var d := Decode(env, args.profile, true);
    if d.Err? {
      return Output(1, [], [CouldNotDecode(d.error)]);
    }
    o := Output(0, [d.value.text], []);
  }

  // ----- dispatch -----------------------------------------------------------

  /** `_handle_arguments` after parsing: help without a sub-command, the
      handler of a known one, a refusal otherwise. `gitdiff` runs the
      corrected handler. */
  method HandleArguments(env: Environment, console: Console, args: Namespace) returns (o: Output)
    ensures args.subcommand.None? ==> o == Output(1, [console.help], [])
    ensures args.subcommand == Some("diff") ==> o == DiffCommandOutput(env, args)
    ensures args.subcommand == Some("gitdiff") ==> o == GitDiffOutput(env, args)
    ensures args.subcommand == Some("read") ==> o == ReadOutput(console, Lookup(env, args.profile, args.key))
    ensures args.subcommand == Some("decode") ==> o == DecodeOutput(env, args)
    ensures args.subcommand.Some? && args.subcommand.value !in {"diff", "gitdiff", "read", "decode"}
            ==> o == Output(1, [UnrecognizedCommand], [])
  {
    if args.subcommand.None? {
      return Output(1, [console.help], []);
    }
    var command := args.subcommand.value;
    if command == "diff" {
      o := HandleDiff(env, args);
    } else if command == "gitdiff" {
      o := HandleGitDiff(env, args);
    } else if command == "read" {
      o := HandleRead(env, console, args);
    } else if command == "decode" {
      o := HandleDecode(env, args);
    } else {
      o := Output(1, [UnrecognizedCommand], []);
    }
  }
}
