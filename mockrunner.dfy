/**
 * The mock runner of pv2/mock/runner.py (mock/runner.py is the same code):
 * how `MockRunner.__run_mock` assembles the mock command line from its
 * keyword options, what the run returns or raises for an exit code, and
 * how `MockErrorResulter` classifies a failed exit.  Running mock, the
 * exit code it returns and the result directory read back from its debug
 * configuration are parameters.
 */
module MockRunner {
  import opened Wrappers
  import opened Text
  import opened Errors
  import opened PyValue
  import opened Lines

  // Exit codes of mock (MockConstants)
  const MockExitError := 1
  const MockExitSetuid := 2
  const MockExitInvConf := 3
  const MockExitInvArch := 6
  const MockExitDnfError := 30
  const MockExitExternalDep := 31
  const MockExitResultdirNotCreated := 70
  const MockExitSighupReceived := 129
  const MockExitSigpipeReceived := 141
  const MockExitSigtermReceived := 143

  /** `if resultdir:` — a result directory that is given and not empty. */
  predicate Given(resultdir: Option<string>)
  {
    resultdir.Some? && resultdir.value != ""
  }

  /** `f'{resultdir}'`: `None` prints as "None". */
  function DirText(resultdir: Option<string>): string
  {
    if resultdir.Some? then resultdir.value else "None"
  }

  /** `os.path.join(dir, name)` for a relative `name`. */
  function PathJoin(dir: string, name: string): (r: string)
    ensures EndsWith(r, name)
    ensures dir != "" ==> StartsWith(r, dir) && |r| > |name| && r[|r| - |name| - 1] == '/'
  {
    if dir == "" then name
    else if EndsWith(dir, "/") then dir + name
    else dir + "/" + name
  }

  // ---------------------------------------------------------------------------
  // The command line
  // ---------------------------------------------------------------------------

  /** The list `__run_mock` starts from, with the `--resultdir` pair when a result directory is given. */
  function BaseArgs(config: string, call: string, arg: string, resultdir: Option<string>): seq<string>
  {
    ["mock", "--root", config, "--" + call, arg] + (if Given(resultdir) then ["--resultdir", resultdir.value] else [])
  }

  /** One macro definition: the quoted "'<macro> <value>'". */
  function DefineArg(entry: (Value, Value)): string
  {
    "'" + Str(entry.0) + " " + Str(entry.1) + "'"
  }

  /** The `--define` pairs for the entries of `definitions`, in order. */
  function DefineArgs(entries: seq<(Value, Value)>): (r: seq<string>)
  {
    if entries == [] then []
    else DefineArgs(entries[..|entries| - 1]) + ["--define", DefineArg(entries[|entries| - 1])]
  }

  /** The arguments one keyword option adds, or the exception it raises. */
  function OptionArgs(option: string, argument: Value): Result<seq<string>, Error>
  {
    if argument == PyNone then Success([])
    else if option == "definitions" then
      if argument.PyDict? then Success(DefineArgs(argument.entries))
      else Failure(Error(PyAttributeError, "'" + TypeName(argument) + "' object has no attribute 'items'"))
    else if option == "quiet" then Success(["--quiet"])
    else if option == "isolation" then
      if argument == PyStr("simple") || argument == PyStr("nspawn") then Success(["--isolation", Str(argument)])
      else Failure(Error(ProvidedValueError, Str(argument) + " is an invalid isolation option."))
    else
      Success(["--" + option] + (if |Str(argument)| > 0 then [Str(argument)] else []))
  }

  /** The arguments the keyword options add in order; the first exception stops the assembly. */
  function KwargArgs(kwargs: seq<(string, Value)>): Result<seq<string>, Error>
  {
    if kwargs == [] then Success([])
    else
      match KwargArgs(kwargs[..|kwargs| - 1])
      case Failure(e) => Failure(e)
      case Success(before) =>
        var (option, argument) := kwargs[|kwargs| - 1];
        match OptionArgs(option, argument)
        case Failure(e) => Failure(e)
        case Success(added) => Success(before + added)
  }

  /** The whole argument list `__run_mock` hands to the process runner. */
  function MockArgs(config: string, call: string, arg: string, resultdir: Option<string>,
                    kwargs: seq<(string, Value)>): Result<seq<string>, Error>
  {
    match KwargArgs(kwargs)
    case Failure(e) => Failure(e)
    case Success(added) => Success(BaseArgs(config, call, arg, resultdir) + added)
  }

  /** `[arg for arg in initial_args if arg]`. */
  function NonEmpty(args: seq<string>): (r: seq<string>)
    ensures forall i :: 0 <= i < |r| ==> r[i] != ""
    ensures forall x :: x in r <==> x in args && x != ""
    ensures (forall i :: 0 <= i < |args| ==> args[i] != "") ==> r == args
  {
    if args == [] then []
    else if args[0] == "" then NonEmpty(args[1..])
    else [args[0]] + NonEmpty(args[1..])
  }

  /** The command string that is logged and reported: the non-empty arguments joined by single spaces. */
  function CommandLine(args: seq<string>): string
  {
    Join(" ", NonEmpty(args))
  }

  /** The inner loop of `__run_mock` over the items of `definitions`. */
  method DefineArgsLoop(entries: seq<(Value, Value)>) returns (args: seq<string>)
    ensures args == DefineArgs(entries)
  {
    args := [];
    var j := 0;
    while j < |entries|
      invariant 0 <= j <= |entries|
      invariant args == DefineArgs(entries[..j])
    {
      assert entries[..j + 1][..j] == entries[..j];
      args := args + ["--define", DefineArg(entries[j])];
      j := j + 1;
    }
    assert entries[..j] == entries;
  }

  /** `__run_mock`'s argument assembly, step by step as the source appends to `initial_args`. */
  method BuildArgs(config: string, call: string, arg: string, resultdir: Option<string>,
                   kwargs: seq<(string, Value)>) returns (r: Result<seq<string>, Error>)
    ensures r == MockArgs(config, call, arg, resultdir, kwargs)
  {
    var args := ["mock", "--root", config, "--" + call, arg];
    if Given(resultdir) {
      args := args + ["--resultdir", resultdir.value];
    }
    ghost var base := args;
    var i := 0;
    while i < |kwargs|
      invariant 0 <= i <= |kwargs|
      invariant KwargArgs(kwargs[..i]).Success?
      invariant args == base + KwargArgs(kwargs[..i]).value
    {
      var (option, argument) := kwargs[i];
      assert kwargs[..i + 1][..i] == kwargs[..i];
      ghost var before := KwargArgs(kwargs[..i]).value;
      if argument == PyNone {
        assert before + [] == before;
      } else if option == "definitions" {
        if !argument.PyDict? {
          r := Failure(Error(PyAttributeError, "'" + TypeName(argument) + "' object has no attribute 'items'"));
          FailureSticks(kwargs, i + 1);
          return;
        }
        var defines := DefineArgsLoop(argument.entries);
        args := args + defines;
        Regroup(base, before, defines);
      } else if option == "quiet" {
        args := args + ["--quiet"];
        Regroup(base, before, ["--quiet"]);
      } else if option == "isolation" {
        if argument == PyStr("simple") || argument == PyStr("nspawn") {
          args := args + ["--isolation", Str(argument)];
          Regroup(base, before, ["--isolation", Str(argument)]);
        } else {
          r := Failure(Error(ProvidedValueError, Str(argument) + " is an invalid isolation option."));
          FailureSticks(kwargs, i + 1);
          return;
        }
      } else {
        var added := ["--" + option];
        if |Str(argument)| > 0 {
          added := added + [Str(argument)];
        }
        args := args + added;
        Regroup(base, before, added);
      }
      i := i + 1;
    }
    assert kwargs[..i] == kwargs;
    r := Success(args);
  }

  /** Once an option has raised, the options after it change nothing. */
  lemma {:induction false} FailureSticks(kwargs: seq<(string, Value)>, i: nat)
    requires i <= |kwargs| && KwargArgs(kwargs[..i]).Failure?
    ensures KwargArgs(kwargs) == KwargArgs(kwargs[..i])
    decreases |kwargs| - i
  {
    if i == |kwargs| {
      assert kwargs[..i] == kwargs;
    } else {
      var k := kwargs[..|kwargs| - 1];
      assert k[..i] == kwargs[..i];
      FailureSticks(k, i);
    }
  }

  // ---------------------------------------------------------------------------
  // Properties of the command line
  // ---------------------------------------------------------------------------

  /** The list begins mock, --root, <config>, --<call>, <arg>, and then --resultdir <dir> exactly when a result directory is given. */
  lemma ArgsBegin(config: string, call: string, arg: string, resultdir: Option<string>, kwargs: seq<(string, Value)>)
    requires MockArgs(config, call, arg, resultdir, kwargs).Success?
    ensures var r := MockArgs(config, call, arg, resultdir, kwargs).value;
            |r| >= 5 && r[..5] == ["mock", "--root", config, "--" + call, arg] &&
            (Given(resultdir) ==> |r| >= 7 && r[5..7] == ["--resultdir", resultdir.value])
  {
    var r := MockArgs(config, call, arg, resultdir, kwargs).value;
    var b := BaseArgs(config, call, arg, resultdir);
    assert r[..|b|] == b;
    assert r[..5] == b[..5];
  }

  /** The assembly raises exactly when some option raises, and then with the first such option's exception. */
  lemma {:induction false} KwargsSucceedIff(kwargs: seq<(string, Value)>)
    ensures KwargArgs(kwargs).Success? <==> forall i :: 0 <= i < |kwargs| ==> OptionArgs(kwargs[i].0, kwargs[i].1).Success?
  {
    if kwargs != [] {
      var k := kwargs[..|kwargs| - 1];
      KwargsSucceedIff(k);
      assert forall i :: 0 <= i < |k| ==> k[i] == kwargs[i];
    }
  }

  /** A None option adds nothing wherever it stands. */
  lemma {:induction false} NoneSkipped(front: seq<(string, Value)>, option: string, back: seq<(string, Value)>)
    ensures KwargArgs(front + [(option, PyNone)] + back) == KwargArgs(front + back)
    decreases |back|
  {
    if back == [] {
      assert (front + [(option, PyNone)] + back)[..|front|] == front;
      assert front + back == front;
      var b := KwargArgs(front);
      if b.Success? {
        assert b.value + [] == b.value;
      }
    } else {
      var s, t := front + [(option, PyNone)] + back, front + back;
      var back' := back[..|back| - 1];
      assert s[..|s| - 1] == front + [(option, PyNone)] + back';
      assert t[..|t| - 1] == front + back';
      assert s[|s| - 1] == t[|t| - 1];
      NoneSkipped(front, option, back');
    }
  }

  /** `quiet` with any value other than None, False included, adds a bare --quiet. */
  lemma QuietIsBare(quiet: Value)
    requires quiet != PyNone
    ensures OptionArgs("quiet", quiet) == Success(["--quiet"])
    ensures KwargArgs([("quiet", quiet)]) == Success(["--quiet"])
  {
    assert [("quiet", quiet)][..0] == [];
    assert [] + ["--quiet"] == ["--quiet"];
  }

  /** `isolation` is accepted exactly for "simple" and "nspawn", and otherwise raises ProvidedValueError naming the value. */
  lemma IsolationRestricted(isolation: Value)
    requires isolation != PyNone
    ensures OptionArgs("isolation", isolation).Success? <==> isolation in {PyStr("simple"), PyStr("nspawn")}
    ensures OptionArgs("isolation", isolation).Success? ==> OptionArgs("isolation", isolation).value == ["--isolation", isolation.s]
    ensures OptionArgs("isolation", isolation).Failure? ==>
              OptionArgs("isolation", isolation).error == Error(ProvidedValueError, Str(isolation) + " is an invalid isolation option.")
  {
  }

  /** `DefineArgs` gives two arguments per entry. */
  lemma {:induction false} DefineArgsLength(entries: seq<(Value, Value)>)
    ensures |DefineArgs(entries)| == 2 * |entries|
  {
    if entries != [] {
      DefineArgsLength(entries[..|entries| - 1]);
    }
  }

  /** Entry `j` of `definitions` gives arguments `2 * j` and `2 * j + 1`. */
  lemma {:induction false} DefineArgsAt(entries: seq<(Value, Value)>, j: nat)
    requires j < |entries|
    ensures |DefineArgs(entries)| == 2 * |entries|
    ensures DefineArgs(entries)[2 * j] == "--define" && DefineArgs(entries)[2 * j + 1] == DefineArg(entries[j])
  {
    var e := entries[..|entries| - 1];
    DefineArgsLength(entries);
    DefineArgsLength(e);
    if j < |e| {
      DefineArgsAt(e, j);
      assert e[j] == entries[j];
    }
  }

  /** Every entry of `definitions` becomes --define followed by "'<macro> <value>'", in order. */
  lemma DefinitionsRendered(entries: seq<(Value, Value)>)
    ensures |DefineArgs(entries)| == 2 * |entries|
    ensures forall j :: 0 <= j < |entries| ==>
              DefineArgs(entries)[2 * j] == "--define" &&
              DefineArgs(entries)[2 * j + 1] == "'" + Str(entries[j].0) + " " + Str(entries[j].1) + "'"
  {
    DefineArgsLength(entries);
    forall j | 0 <= j < |entries|
      ensures DefineArgs(entries)[2 * j] == "--define" &&
              DefineArgs(entries)[2 * j + 1] == "'" + Str(entries[j].0) + " " + Str(entries[j].1) + "'"
    {
      DefineArgsAt(entries, j);
    }
  }

  /** Any other option adds --<option>, then its string form unless that is empty. */
  lemma OtherOption(option: string, argument: Value)
    requires argument != PyNone && option !in {"definitions", "quiet", "isolation"}
    ensures var r := OptionArgs(option, argument);
            r.Success? && r.value[0] == "--" + option &&
            (|r.value| == 2 <==> Str(argument) != "") && (|r.value| == 2 ==> r.value[1] == Str(argument))
  {
  }

  // ---------------------------------------------------------------------------
  // The runner's public calls and the run itself
  // ---------------------------------------------------------------------------

  /** What `__run_mock` is called with: the mock command, its argument, the result directory and the keyword options. */
  datatype MockCall = MockCall(call: string, arg: string, resultdir: Option<string>, kwargs: seq<(string, Value)>)

  function InitCall(resultdir: Option<string>, quiet: Value, isolation: Value): MockCall
  {
    MockCall("init", "", resultdir, [("quiet", quiet), ("isolation", isolation)])
  }

  function ShellCall(command: string, resultdir: Option<string>, quiet: Value, isolation: Value): MockCall
  {
    MockCall("shell", command, resultdir, [("quiet", quiet), ("isolation", isolation)])
  }

  function BuildsrpmCall(spec: string, sources: string, resultdir: Option<string>, definitions: Value,
                         timeout: Value, quiet: Value, isolation: Value): MockCall
  {
    MockCall("buildsrpm", "", resultdir,
             [("spec", PyStr(spec)), ("sources", PyStr(sources)), ("definitions", definitions),
              ("rpmbuild_timeout", timeout), ("quiet", quiet), ("target", PyStr("noarch")),
              ("isolation", isolation)])
  }

  function BuildCall(srpmPath: string, resultdir: Option<string>, definitions: Value,
                     timeout: Value, quiet: Value, isolation: Value): MockCall
  {
    MockCall("rebuild", srpmPath, resultdir,
             [("rpmbuild_timeout", timeout), ("definitions", definitions), ("quiet", quiet),
              ("isolation", isolation)])
  }

  /** Dropping one empty argument between non-empty ones. */
  lemma NonEmptyDropsOne(a: seq<string>, b: seq<string>)
    requires forall i :: 0 <= i < |a| ==> a[i] != ""
    requires forall i :: 0 <= i < |b| ==> b[i] != ""
    ensures NonEmpty(a + [""] + b) == a + b
  {
    NonEmptyConcat(a, [""] + b);
    assert ([""] + b)[1..] == b;
    assert a + [""] + b == a + ([""] + b);
  }

  lemma {:induction false} NonEmptyConcat(a: seq<string>, b: seq<string>)
    requires forall i :: 0 <= i < |a| ==> a[i] != ""
    ensures NonEmpty(a + b) == a + NonEmpty(b)
  {
    if a != [] {
      assert (a + b)[1..] == a[1..] + b;
      NonEmptyConcat(a[1..], b);
      assert a == [a[0]] + a[1..];
    } else {
      assert a + b == b;
    }
  }

  /** A source RPM build with only the required options runs mock with the spec, the sources and the noarch target. */
  lemma BuildsrpmCommand(config: string, spec: string, sources: string)
    requires config != "" && spec != "" && sources != ""
    ensures var c := BuildsrpmCall(spec, sources, None, PyNone, PyNone, PyNone, PyNone);
            var r := MockArgs(config, c.call, c.arg, c.resultdir, c.kwargs);
            r.Success? &&
            NonEmpty(r.value) == ["mock", "--root", config, "--buildsrpm", "--spec", spec, "--sources", sources, "--target", "noarch"]
  {
    var c := BuildsrpmCall(spec, sources, None, PyNone, PyNone, PyNone, PyNone);
    var added := ["--spec", spec, "--sources", sources, "--target", "noarch"];
    BuildsrpmOptions(spec, sources);
    assert "--" + "buildsrpm" == "--buildsrpm";
    assert BaseArgs(config, "buildsrpm", "", None) == ["mock", "--root", config, "--buildsrpm"] + [""];
    NonEmptyDropsOne(["mock", "--root", config, "--buildsrpm"], added);
  }

  lemma BuildsrpmOptions(spec: string, sources: string)
    requires spec != "" && sources != ""
    ensures KwargArgs(BuildsrpmCall(spec, sources, None, PyNone, PyNone, PyNone, PyNone).kwargs)
         == Success(["--spec", spec, "--sources", sources, "--target", "noarch"])
  {
    var k := BuildsrpmCall(spec, sources, None, PyNone, PyNone, PyNone, PyNone).kwargs;
    var added := ["--spec", spec, "--sources", sources, "--target", "noarch"];
    KwargSnoc([], ("spec", PyStr(spec)));
    KwargSnoc(k[..1], ("sources", PyStr(sources)));
    KwargSnoc(k[..2], ("definitions", PyNone));
    KwargSnoc(k[..3], ("rpmbuild_timeout", PyNone));
    KwargSnoc(k[..4], ("quiet", PyNone));
    KwargSnoc(k[..5], ("target", PyStr("noarch")));
    KwargSnoc(k[..6], ("isolation", PyNone));
    assert [] + [("spec", PyStr(spec))] == k[..1];
    assert k[..1] + [k[1]] == k[..2] && k[..2] + [k[2]] == k[..3] && k[..3] + [k[3]] == k[..4];
    assert k[..4] + [k[4]] == k[..5] && k[..5] + [k[5]] == k[..6] && k[..6] + [k[6]] == k;
    PlainOption("spec", spec);
    PlainOption("sources", sources);
    PlainOption("target", "noarch");
    assert "--" + "spec" == "--spec" && "--" + "sources" == "--sources" && "--" + "target" == "--target";
    assert [] + ["--spec", spec] == added[..2];
    assert added[..2] + ["--sources", sources] == added[..4];
    assert added[..4] + [] == added[..4];
    assert added[..4] + ["--target", "noarch"] == added;
    assert added + [] == added;
  }

  /** A plain option with a non-empty string value adds --<option> <value>. */
  lemma PlainOption(option: string, value: string)
    requires option !in {"definitions", "quiet", "isolation"} && value != ""
    ensures OptionArgs(option, PyStr(value)) == Success(["--" + option, value])
  {
    assert ["--" + option] + [value] == ["--" + option, value];
  }

  /** One more option: the assembly so far, then that option's arguments. */
  lemma KwargSnoc(kwargs: seq<(string, Value)>, kv: (string, Value))
    ensures KwargArgs(kwargs + [kv]) ==
              match KwargArgs(kwargs)
              case Failure(e) => Failure(e)
              case Success(before) =>
                match OptionArgs(kv.0, kv.1)
                case Failure(e) => Failure(e)
                case Success(added) => Success(before + added)
  {
    assert (kwargs + [kv])[..|kwargs|] == kwargs;
  }

  /** What the runner reports for a finished run. */
  datatype MockResult = MockResult(command: string, config: string, exitCode: int, resultdir: Option<string>)

  /**
   * The end of a `__run_mock` call: a result, an exception raised while
   * assembling the arguments (mock is not run), or a `MockErrorResulter`
   * raised with these constructor arguments.
   */
  datatype Outcome =
    | Ran(result: MockResult)
    | Invalid(error: Error)
    | Failed(command: string, exitCode: int, resultdir: Option<string>)

  /**
   * `__run_mock` for a call, given the exit code mock returned and the
   * result directory mock's debug configuration names (used when none was
   * given).
   */
  function RunOutcome(config: string, c: MockCall, exitCode: int, determined: Option<string>): (o: Outcome)
  {
    match MockArgs(config, c.call, c.arg, c.resultdir, c.kwargs)
    case Failure(e) => Invalid(e)
    case Success(args) =>
      var command := CommandLine(args);
      var resultdir := if Given(c.resultdir) then c.resultdir else determined;
      if exitCode != 0 then Failed(command, exitCode, resultdir)
      else Ran(MockResult(command, config, exitCode, resultdir))
  }

  /** Exit 0 gives a result and any other exit raises, both with the given result directory or else the determined one; bad options raise before mock runs. */
  lemma RunOutcomeCases(config: string, c: MockCall, exitCode: int, determined: Option<string>)
    ensures var o := RunOutcome(config, c, exitCode, determined);
            var dir := if Given(c.resultdir) then c.resultdir else determined;
            (o.Invalid? <==> MockArgs(config, c.call, c.arg, c.resultdir, c.kwargs).Failure?) &&
            (o.Ran? <==> !o.Invalid? && exitCode == 0) &&
            (o.Ran? ==> o.result.exitCode == 0 && o.result.resultdir == dir && o.result.config == config) &&
            (o.Failed? ==> o.exitCode == exitCode && o.exitCode != 0 && o.resultdir == dir)
  {
  }

  /**
   * `clean`: a `MockErrorResulter` from the run with the caller's options
   * is logged and dropped, and a plain clean runs after it either way; an
   * invalid isolation option is not caught.  The source returns nothing,
   * so only whether and how the second run raises matters.
   */
  function CleanOutcome(config: string, quiet: Value, isolation: Value,
                        firstExit: int, secondExit: int, determined: Option<string>): (o: Outcome)
  {
    var first := RunOutcome(config, MockCall("clean", "", None, [("quiet", quiet), ("isolation", isolation)]), firstExit, determined);
    if first.Invalid? then first
    else RunOutcome(config, MockCall("clean", "", None, []), secondExit, determined)
  }

  /** A failing first clean does not decide the outcome: the plain second clean does. */
  lemma CleanIgnoresFirstFailure(config: string, quiet: Value, isolation: Value,
                                 firstExit: int, secondExit: int, determined: Option<string>)
    requires isolation == PyNone || isolation == PyStr("simple") || isolation == PyStr("nspawn")
    ensures CleanOutcome(config, quiet, isolation, firstExit, secondExit, determined)
         == RunOutcome(config, MockCall("clean", "", None, []), secondExit, determined)
  {
    var k := [("quiet", quiet), ("isolation", isolation)];
    assert k[..1][..0] == [] && k[..2][..1] == k[..1] && k[..2] == k;
    KwargsSucceedIff(k);
  }

  // ---------------------------------------------------------------------------
  // MockErrorResulter
  // ---------------------------------------------------------------------------

  /** The log file a `MockErrorResulter` points at: inside the result directory when one is known. */
  function LogPath(resultdir: Option<string>, name: string): (r: Option<string>)
    ensures r.Some? <==> Given(resultdir)
    ensures r.Some? ==> r.value == PathJoin(resultdir.value, name)
  {
    if Given(resultdir) then Some(PathJoin(resultdir.value, name)) else None
  }

  /** The message used unless the exit code calls for another one. */
  function DefaultMessage(command: string, exitCode: int, resultdir: Option<string>): string
  {
    DefaultText0 + command + DefaultText1 + IntToString(exitCode) + DefaultText2 + DirText(resultdir) + DefaultText3
  }

  const DefaultText0 := "Command "
  const DefaultText1 := " exited with code "
  const DefaultText2 := ". Please review build.log and root.log located in the main root ("
  const DefaultText3 := ") or bootstrap root."

  /** The message of exit 2: setuid/setgid missing or another failure such as a bootstrap init failure. */
  function SetuidMessage(resultdir: Option<string>): string
  {
    SetuidText0 + DirText(resultdir) + SetuidText1
  }

  const SetuidText0 := "Either setuid/setgid is not available or another error occurred "
                       + "(such as a bootstrap init failure). Please review build.log or root.log, in the main root ("
  const SetuidText1 := ") or bootstrap root if applicable."

  /** The message of an unlisted exit code. */
  function UnexpectedMessage(command: string): string
  {
    UnexpectedText + command
  }

  const UnexpectedText := "An unexpected mock error was caught. Review stdout/stderr or other logs to determine the issue. \n\nMock command: "

  /** The exception class whose `__init__` a failed exit runs. */
  function ExitKind(exitCode: int): Kind
  {
    if exitCode == MockExitError then MockGenericError
    else if exitCode == MockExitSetuid then MockGenericError
    else if exitCode == MockExitInvConf then MockInvalidConfError
    else if exitCode == MockExitInvArch then MockInvalidArchError
    else if exitCode == MockExitDnfError || exitCode == MockExitExternalDep then MockDnfError
    else if exitCode == MockExitResultdirNotCreated then MockResultdirError
    else if exitCode == MockExitSighupReceived || exitCode == MockExitSigpipeReceived || exitCode == MockExitSigtermReceived
    then MockSignalReceivedError
    else MockUnexpectedError
  }

  /**
   * The class and message of a failed exit: the setuid exit and the
   * unexpected ones replace the default message; the exception's `str()`
   * is that message.
   */
  function ExitError(command: string, exitCode: int, resultdir: Option<string>): Error
  {
    var kind := ExitKind(exitCode);
    Error(kind,
          if exitCode == MockExitSetuid then SetuidMessage(resultdir)
          else if kind == MockUnexpectedError then UnexpectedMessage(command)
          else DefaultMessage(command, exitCode, resultdir))
  }

  /** The exit codes the classifier names, with the class each one gets. */
  const ExitKinds: map<int, Kind> :=
    map[1 := MockGenericError, 2 := MockGenericError, 3 := MockInvalidConfError, 6 := MockInvalidArchError,
        30 := MockDnfError, 31 := MockDnfError, 70 := MockResultdirError,
        129 := MockSignalReceivedError, 141 := MockSignalReceivedError, 143 := MockSignalReceivedError]

  /** The classifier agrees with the table of mock's exit codes: a listed code gets its class, any other code `MockUnexpectedError`. */
  lemma ExitKindFollowsTable(exitCode: int)
    ensures ExitKind(exitCode) == (if exitCode in ExitKinds then ExitKinds[exitCode] else MockUnexpectedError)
  {
  }

  /** Every class the classifier picks is a MockGenericError. */
  lemma ExitKindIsMockError(exitCode: int)
    ensures IsA(ExitKind(exitCode), MockGenericError)
  {
  }

  /** Exit 2 replaces the default message by the setuid one, naming the result directory. */
  lemma SetuidExitMessage(command: string, resultdir: Option<string>)
    ensures ExitError(command, MockExitSetuid, resultdir) == Error(MockGenericError, SetuidMessage(resultdir))
  {
  }

  /** Every unlisted code is unexpected and reported with the "unexpected" message naming the command. */
  lemma UnlistedExitIsUnexpected(command: string, exitCode: int, resultdir: Option<string>)
    requires exitCode !in ExitKinds
    ensures ExitError(command, exitCode, resultdir) == Error(MockUnexpectedError, UnexpectedMessage(command))
  {
    ExitKindFollowsTable(exitCode);
  }

  /** The listed codes other than 2 keep the default message, naming the command, the code and the result directory. */
  lemma ListedExitKeepsDefaultMessage(command: string, exitCode: int, resultdir: Option<string>)
    requires exitCode in ExitKinds && exitCode != MockExitSetuid
    ensures ExitError(command, exitCode, resultdir) == Error(ExitKinds[exitCode], DefaultMessage(command, exitCode, resultdir))
  {
    ExitKindFollowsTable(exitCode);
  }

  /** The branch chain of `MockErrorResulter.__init__`: the class whose `__init__` runs and the message it gets. */
  method Classify(command: string, exitCode: int, resultdir: Option<string>) returns (e: Error)
    ensures e == ExitError(command, exitCode, resultdir)
  {
    var message := DefaultMessage(command, exitCode, resultdir);
    var kind;
    if exitCode == MockExitError {
      kind := MockGenericError;
      assert ExitKind(exitCode) == MockGenericError;
    } else if exitCode == MockExitSetuid {
      message := SetuidMessage(resultdir);
      kind := MockGenericError;
      assert ExitKind(exitCode) == MockGenericError;
    } else if exitCode == MockExitInvConf {
      kind := MockInvalidConfError;
      assert ExitKind(exitCode) == MockInvalidConfError;
    } else if exitCode == MockExitInvArch {
      kind := MockInvalidArchError;
      assert ExitKind(exitCode) == MockInvalidArchError;
    } else if exitCode == MockExitDnfError || exitCode == MockExitExternalDep {
      kind := MockDnfError;
      assert ExitKind(exitCode) == MockDnfError;
    } else if exitCode == MockExitResultdirNotCreated {
      kind := MockResultdirError;
      assert ExitKind(exitCode) == MockResultdirError;
    } else if exitCode == MockExitSighupReceived || exitCode == MockExitSigpipeReceived || exitCode == MockExitSigtermReceived {
      kind := MockSignalReceivedError;
      assert ExitKind(exitCode) == MockSignalReceivedError;
    } else {
      message := UnexpectedMessage(command);
      kind := MockUnexpectedError;
      assert ExitKind(exitCode) == MockUnexpectedError;
    }
    e := Error(kind, message);
  }

  /**
   * `MockErrorResulter`: the log paths and the classification of a failed
   * exit. `kind` is the class whose `__init__` the resulter runs on itself;
   * the exception raised is still of type `MockErrorResulter`, which derives
   * from `Exception` alone, whatever `kind` says.
   */
  class MockErrorResulter {
    var buildLog: Option<string>
    var rootLog: Option<string>
    var error: Error

    constructor (command: string, exitCode: int, resultdir: Option<string>)
      ensures buildLog == LogPath(resultdir, "build.log") && rootLog == LogPath(resultdir, "root.log")
      ensures error == ExitError(command, exitCode, resultdir)
    {
      var e := Classify(command, exitCode, resultdir);
      buildLog := None;
      rootLog := None;
      if Given(resultdir) {
        buildLog := Some(PathJoin(resultdir.value, "build.log"));
        rootLog := Some(PathJoin(resultdir.value, "root.log"));
      }
      error := e;
    }
  }
}
