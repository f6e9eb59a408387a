/**
 * The patch editor: the actions a patch configuration names, the check of
 * each action's parameter map, the file edits of `SearchAndReplace`,
 * `DeleteLine`, `AppendRelease` and the spec path of `AddFile`, the queue
 * that runs the actions, and the structural check of the configuration.
 *
 * Locating a file (`find_file_name`), copying files in, uploads, git,
 * scripts and the YAML parser are outside the model: their results are
 * parameters.
 */
module Editor {
  import opened Wrappers
  import opened Text
  import opened Errors
  import opened PyValue
  import opened Lines
  import Generic
  import RpmUtil
  import SrpmUtil
  import Processor

  // ---------------------------------------------------------------------
  // Actions and their schemas

  /** The action classes, one per key of `Config.ACTIONS`. */
  datatype ActionKind =
    | AppendRelease | ApplyPatch | ApplyScript | AddFile | DeleteFile
    | DeleteLine | ReplaceFile | SearchAndReplace | SpecChangelog

  /** An action: its class and the parameter map it was built from. */
  datatype Action = Action(kind: ActionKind, data: Value)

  /** The configuration key under which each action is listed. */
  function ActionName(k: ActionKind): string
  {
    match k
    case AppendRelease => "append_release"
    case ApplyPatch => "apply_patch"
    case ApplyScript => "apply_script"
    case AddFile => "add_file"
    case DeleteFile => "delete_file"
    case DeleteLine => "delete_line"
    case ReplaceFile => "replace_file"
    case SearchAndReplace => "search_and_replace"
    case SpecChangelog => "spec_changelog"
  }

  /** `Config.ACTIONS.get(name)`. */
  function ActionByName(name: Value): (r: Option<ActionKind>)
    ensures r.Some? ==> name == PyStr(ActionName(r.value))
    ensures r.None? ==> forall k :: name != PyStr(ActionName(k))
  {
    if !name.PyStr? then None
    else
      match name.s
      case "append_release" => Some(AppendRelease)
      case "apply_patch" => Some(ApplyPatch)
      case "apply_script" => Some(ApplyScript)
      case "add_file" => Some(AddFile)
      case "delete_file" => Some(DeleteFile)
      case "delete_line" => Some(DeleteLine)
      case "replace_file" => Some(ReplaceFile)
      case "search_and_replace" => Some(SearchAndReplace)
      case "spec_changelog" => Some(SpecChangelog)
      case _ => None
  }

  /** `required_keys` of each action class. */
  function RequiredKeys(k: ActionKind): seq<string>
  {
    match k
    case SearchAndReplace => ["target", "find", "replace"]
    case DeleteLine => ["target", "lines"]
    case AppendRelease => ["suffix", "enabled"]
    case SpecChangelog => ["name", "email", "line"]
    case AddFile => ["type", "name", "number"]
    case DeleteFile => ["filename"]
    case ReplaceFile => ["filename"]
    case ApplyScript => ["script"]
    case ApplyPatch => ["filename"]
  }

  /** `allowed_keys` of each action class, in declaration order, with the type each value must have. */
  function AllowedKeys(k: ActionKind): seq<(string, PyType)>
  {
    match k
    case SearchAndReplace =>
      [("target", StrType), ("find", StrType), ("regex", BoolType), ("replace", StrType), ("count", IntType)]
    case DeleteLine => [("target", StrType), ("lines", ListType)]
    case AppendRelease => [("suffix", StrType), ("enabled", BoolType)]
    case SpecChangelog => [("name", StrType), ("email", StrType), ("line", ListType)]
    case AddFile =>
      [("type", StrType), ("name", StrType), ("number", StrType), ("add_to_spec", BoolType), ("upload", BoolType)]
    case DeleteFile => [("filename", StrType)]
    case ReplaceFile => [("filename", StrType), ("upload_to_lookaside", BoolType)]
    case ApplyScript => [("script", StrType)]
    case ApplyPatch => [("filename", StrType)]
  }

  // ---------------------------------------------------------------------
  // Action.validate

  /** The required keys the map lacks, in the schema's order. */
  function MissingKeys(required: seq<string>, entries: seq<(Value, Value)>): (r: seq<string>)
    ensures forall key :: key in r <==> key in required && !HasKey(entries, PyStr(key))
  {
    if required == [] then []
    else (if HasKey(entries, PyStr(required[0])) then [] else [required[0]]) + MissingKeys(required[1..], entries)
  }

  /** `key` is one of the allowed keys. */
  predicate AllowedKey(allowed: seq<(string, PyType)>, key: Value)
  {
    exists j :: 0 <= j < |allowed| && key == PyStr(allowed[j].0)
  }

  /** Some key of the map is not allowed. */
  function HasUnexpectedKey(entries: seq<(Value, Value)>, allowed: seq<(string, PyType)>): (r: bool)
    ensures r <==> exists i :: 0 <= i < |entries| && !AllowedKey(allowed, entries[i].0)
  {
    if entries == [] then false
    else
      var rest := HasUnexpectedKey(entries[1..], allowed);
      assert forall i :: 1 <= i < |entries| ==> entries[i] == entries[1..][i - 1];
      !AllowedKey(allowed, entries[0].0) || rest
  }

  /** A present value that the loop over `allowed_keys` refuses: of the wrong type, or one of None, "", [] and {}. */
  predicate BadValue(v: Value, t: PyType)
  {
    !IsInstance(v, t) || IsEmptyLiteral(v)
  }

  /** The loop over `allowed_keys`: the error for the first present key whose value is refused. */
  function CheckValues(entries: seq<(Value, Value)>, allowed: seq<(string, PyType)>): (r: Option<Error>)
    ensures r.None? <==> forall j :: 0 <= j < |allowed| && HasKey(entries, PyStr(allowed[j].0)) ==>
      !BadValue(Get(entries, PyStr(allowed[j].0)).value, allowed[j].1)
    ensures r.Some? ==> r.value.kind == PyTypeError
  {
    if allowed == [] then None
    else
      var rest := CheckValues(entries, allowed[1..]);
      assert forall j :: 1 <= j < |allowed| ==> allowed[j] == allowed[1..][j - 1];
      match Get(entries, PyStr(allowed[0].0))
      case None => rest
      case Some(v) =>
        if !IsInstance(v, allowed[0].1) then Some(MissingReason("PatchConfigTypeError"))
        else if IsEmptyLiteral(v) then Some(MissingReason("PatchConfigValueError"))
        else rest
  }

  /** `AddFile.valid_types`. */
  predicate ValidFileType(v: Value)
  {
    v == PyStr("patch") || v == PyStr("source")
  }

  /** A parameter map every check of `validate` accepts. */
  predicate ValidParams(k: ActionKind, data: Value)
  {
    data.PyDict? &&
    (forall key :: key in RequiredKeys(k) ==> HasKey(data.entries, PyStr(key))) &&
    (forall i :: 0 <= i < |data.entries| ==> AllowedKey(AllowedKeys(k), data.entries[i].0)) &&
    (forall j :: 0 <= j < |AllowedKeys(k)| && HasKey(data.entries, PyStr(AllowedKeys(k)[j].0)) ==>
      !BadValue(Get(data.entries, PyStr(AllowedKeys(k)[j].0)).value, AllowedKeys(k)[j].1)) &&
    (k == AddFile ==> ValidFileType(GetOr(data.entries, PyStr("type"), PyNone)))
  }

  /**
   * `Action.validate` (with `AddFile`'s extra check of `type`). Only the
   * missing-keys error is raised as written; every other check builds its
   * error with one argument where two are required, so Python raises a
   * `TypeError` in its place.
   */
  function Validate(k: ActionKind, data: Value): (r: Option<Error>)
    ensures r.None? <==> ValidParams(k, data)
    ensures r.Some? ==> r.value.kind in {PatchConfigValueError, PyTypeError, PyAttributeError}
    ensures r.Some? && r.value.kind == PatchConfigValueError <==>
      data.PyDict? && exists key :: key in RequiredKeys(k) && !HasKey(data.entries, PyStr(key))
    ensures r.Some? && r.value.kind == PyAttributeError <==> !data.PyDict?
  {
    if !data.PyDict? then Some(Error(PyAttributeError, "object has no attribute 'keys'"))
    else
      var entries := data.entries;
      var missing := MissingKeys(RequiredKeys(k), entries);
      if missing != [] then
        assert missing[0] in missing;
        Some(ConfigError(PatchConfigValueError, "Missing keys", Join(", ", missing)))
      else if HasUnexpectedKey(entries, AllowedKeys(k)) then Some(MissingReason("PatchConfigValueError"))
      else if CheckValues(entries, AllowedKeys(k)).Some? then CheckValues(entries, AllowedKeys(k))
      else if k == AddFile && !ValidFileType(GetOr(entries, PyStr("type"), PyNone)) then
        Some(MissingReason("PatchConfigTypeError"))
      else None
  }


  /** The value a valid map holds under one of its allowed keys: of the key's type, and not empty. */
  function Param(k: ActionKind, data: Value, key: string, t: PyType): (v: Value)
    requires ValidParams(k, data) && (key, t) in AllowedKeys(k) && HasKey(data.entries, PyStr(key))
    ensures Get(data.entries, PyStr(key)) == Some(v)
    ensures IsInstance(v, t) && !IsEmptyLiteral(v)
  {
    ghost var j :| 0 <= j < |AllowedKeys(k)| && AllowedKeys(k)[j] == (key, t);
    Get(data.entries, PyStr(key)).value
  }

  /** A valid map holds every required key. */
  lemma RequiredPresent(k: ActionKind, data: Value, key: string)
    requires ValidParams(k, data) && key in RequiredKeys(k)
    ensures HasKey(data.entries, PyStr(key))
  {
  }

  // ---------------------------------------------------------------------
  // The outcome of an action on its file

  /**
   * What running an action leaves: the content it last wrote to its file,
   * if any, and the error it raised, if any; or a run that does not end.
   */
  datatype Outcome = Outcome(written: Option<string>, error: Option<Error>) | Unfinished(written: Option<string>)

  // ---------------------------------------------------------------------
  // SearchAndReplace and DeleteLine

  /** `s.splitlines() if "\n" in s else [s]`: never empty. */
  function ShapeLines(s: string): (r: seq<string>)
    ensures r != []
  {
    if '\n' in s then SplitLines(s) else [s]
  }

  /**
   * The shaped lines, joined with "\n", give the text back when its only
   * line breaks are "\n" and it does not end with one.
   */
  lemma ShapeLinesJoin(s: string)
    requires forall i :: 0 <= i < |s| && IsLineBoundary(s[i]) ==> s[i] == '\n'
    requires s == [] || s[|s| - 1] != '\n'
    ensures Join("\n", ShapeLines(s)) == s
  {
    if '\n' in s {
      JoinSplitLines(s);
    }
  }

  /** The file-name pattern handed to `find_file_name`: any target naming "specfile" means the spec file. */
  function TargetPattern(target: string): string
  {
    if Contains(target, "specfile") then "*.spec" else target
  }

  /** `data.get('count', -1)`; a `bool` passes the `int` check, and `True` counts as 1. */
  function CountParam(v: Option<Value>): int
  {
    match v
    case Some(PyInt(n)) => n
    case Some(PyBool(b)) => if b then 1 else 0
    case _ => -1
  }

  /** The call an action makes: the pattern of the file it edits and the arguments of `data_processor`. */
  datatype Call = Call(pattern: string, params: Processor.Params)

  /**
   * The call `SearchAndReplace.execute` makes. `replace` is never empty
   * (validation refuses ""), so its replacement lines never are: this
   * action never deletes.
   */
  function SearchAndReplaceCall(data: Value, regexSub: string -> Option<string>): (c: Call)
    requires ValidParams(SearchAndReplace, data)
    ensures c.params.findLines != [] && c.params.replaceLines != []
    ensures Get(data.entries, PyStr("target")) == Some(PyStr(c.params.target))
    ensures c.pattern == TargetPattern(c.params.target)
    ensures exists find :: Get(data.entries, PyStr("find")) == Some(PyStr(find)) && c.params.findLines == ShapeLines(find)
    ensures exists replace :: (replace != "" && Get(data.entries, PyStr("replace")) == Some(PyStr(replace)) &&
                               c.params.replaceLines == ShapeLines(replace))
    ensures c.params.regex <==> GetOr(data.entries, PyStr("regex"), PyBool(false)) == PyBool(true)
  {
    RequiredPresent(SearchAndReplace, data, "target");
    RequiredPresent(SearchAndReplace, data, "find");
    RequiredPresent(SearchAndReplace, data, "replace");
    var target := Param(SearchAndReplace, data, "target", StrType).s;
    var find := Param(SearchAndReplace, data, "find", StrType).s;
    var replace := Param(SearchAndReplace, data, "replace", StrType).s;
    var count := CountParam(Get(data.entries, PyStr("count")));
    var regex := GetOr(data.entries, PyStr("regex"), PyBool(false)) == PyBool(true);
    Call(TargetPattern(target), Processor.Params(target, ShapeLines(find), ShapeLines(replace), count, regex, regexSub))
  }

  /**
   * `SearchAndReplace.execute` on the file `find_file_name` located:
   * `content` is what it holds and `fileName` its name.
   */
  method ExecuteSearchAndReplace(data: Value, regexSub: string -> Option<string>, fileName: string, content: string,
                                 fuel: nat)
    returns (r: Outcome)
    requires ValidParams(SearchAndReplace, data)
    ensures r == FromEdit(Processor.DataProcessorSpec(content, fileName, SearchAndReplaceCall(data, regexSub).params, fuel), None)
  {
    var call := SearchAndReplaceCall(data, regexSub);
    var edit := Processor.DataProcessor(content, fileName, call.params, fuel);
    return FromEdit(edit, None);
  }

  /** The outcome of a `data_processor` call, after an earlier write `before`. */
  function FromEdit(e: Processor.Edit, before: Option<string>): Outcome
  {
    match e
    case Edited(c) => Outcome(Some(c), None)
    case Failed(err) => Outcome(before, Some(err))
    case Unfinished => Unfinished(before)
  }

  /** The arguments `DeleteLine` passes for one entry: an empty replacement and no limit. */
  function DeleteParams(target: string, entry: string): (p: Processor.Params)
    ensures p.findLines != [] && p.replaceLines == [] && p.count == -1 && !p.regex
  {
    Processor.Params(target, ShapeLines(entry), [], -1, false, _ => None)
  }

  /** `"\n" in entry` on an entry of `lines` that is not a string. */
  const NotIterable := Error(PyTypeError, "argument of type is not iterable")

  /**
   * `DeleteLine.execute` from the entry `entries[0]` on: each entry is one
   * `data_processor` call on the file as the previous call left it; the
   * first call that raises ends the action, with the earlier writes kept.
   */
  function DeleteLineFrom(target: string, fileName: string, content: string, written: Option<string>,
                          entries: seq<Value>, fuel: nat): Outcome
    decreases |entries|
  {
    if entries == [] then Outcome(written, None)
    else if !entries[0].PyStr? then Outcome(written, Some(NotIterable))
    else
      match Processor.DataProcessorSpec(content, fileName, DeleteParams(target, entries[0].s), fuel)
      case Edited(c) => DeleteLineFrom(target, fileName, c, Some(c), entries[1..], fuel)
      case Failed(e) => Outcome(written, Some(e))
      case Unfinished => Unfinished(written)
  }

  /** `DeleteLine.execute` on the file `find_file_name` located. */
  method ExecuteDeleteLine(data: Value, fileName: string, content: string, fuel: nat) returns (r: Outcome)
    requires ValidParams(DeleteLine, data)
    ensures exists target, entries :: (Get(data.entries, PyStr("target")) == Some(PyStr(target)) &&
                                       Get(data.entries, PyStr("lines")) == Some(PyList(entries)) &&
                                       r == DeleteLineFrom(target, fileName, content, None, entries, fuel))
  {
    RequiredPresent(DeleteLine, data, "target");
    RequiredPresent(DeleteLine, data, "lines");
    var target := Param(DeleteLine, data, "target", StrType).s;
    var entries := Param(DeleteLine, data, "lines", ListType).items;
    var current, written := content, None;
    var i := 0;
    while i < |entries|
      invariant i <= |entries|
      invariant DeleteLineFrom(target, fileName, current, written, entries[i..], fuel) ==
                DeleteLineFrom(target, fileName, content, None, entries, fuel)
    {
      assert entries[i..][1..] == entries[i + 1..];
      if !entries[i].PyStr? {
        return Outcome(written, Some(NotIterable));
      }
      var edit := Processor.DataProcessor(current, fileName, DeleteParams(target, entries[i].s), fuel);
      if edit.Failed? {
        return Outcome(written, Some(edit.error));
      } else if edit.Unfinished? {
        return Unfinished(written);
      }
      current, written := edit.content, Some(edit.content);
      i := i + 1;
    }
    return Outcome(written, None);
  }

  /** A deletion never lengthens the file, so a delete-mode `data_processor` call always ends. */
  lemma DeletionEnds(content: string, fileName: string, target: string, entry: string, fuel: nat)
    ensures !Processor.DataProcessorSpec(content, fileName, DeleteParams(target, entry), fuel).Unfinished?
  {
    var p := DeleteParams(target, entry);
    if Generic.ReadFileToList(content).Success? {
      Processor.WalkEndsWithoutGrowth(p, Generic.ReadFileToList(content).value, 0, 0, false, fuel);
    }
  }

  /** `DeleteLine` always ends, however many entries it has. */
  lemma {:induction false} DeleteLineEnds(target: string, fileName: string, content: string, written: Option<string>,
                                          entries: seq<Value>, fuel: nat)
    ensures DeleteLineFrom(target, fileName, content, written, entries, fuel).Outcome?
    decreases |entries|
  {
    if entries != [] && entries[0].PyStr? {
      DeletionEnds(content, fileName, target, entries[0].s, fuel);
      match Processor.DataProcessorSpec(content, fileName, DeleteParams(target, entries[0].s), fuel)
      case Edited(c) => DeleteLineEnds(target, fileName, c, Some(c), entries[1..], fuel);
      case Failed(_) =>
    }
  }

  // ---------------------------------------------------------------------
  // AppendRelease

  /** The error `AppendRelease` raises when the spec has no "Release:" line. */
  const NoReleaseLine := NotApplied("Release: There was no release line found.", "Failed")

  /**
   * The edit of `AppendRelease`: the suffix goes on the end of the first
   * "Release:" line; with no such line, `NotAppliedError`.
   */
  function AppendToRelease(lines: seq<string>, suffix: string): (r: Result<seq<string>, Error>)
    ensures r.Failure? <==> forall i :: 0 <= i < |lines| ==> !RpmUtil.SpecLineRelease(lines[i])
    ensures r.Failure? ==> r.error == NoReleaseLine
    ensures r.Success? ==> exists i :: 0 <= i < |lines| && FirstRelease(lines, i) && r.value == lines[i := lines[i] + suffix]
  {
    match RpmUtil.FirstWithPrefix(lines, "Release:")
    case None => Failure(NoReleaseLine)
    case Some(i) => Success(lines[i := lines[i] + suffix])
  }

  /** Line `i` is the first "Release:" line. */
  predicate FirstRelease(lines: seq<string>, i: nat)
  {
    i < |lines| && RpmUtil.SpecLineRelease(lines[i]) && forall j :: 0 <= j < i ==> !RpmUtil.SpecLineRelease(lines[j])
  }

  /** Appending one suffix and then another is appending both at once: the edited line is still the first release line. */
  lemma AppendToReleaseTwice(lines: seq<string>, s: string, t: string)
    requires AppendToRelease(lines, s).Success?
    ensures AppendToRelease(AppendToRelease(lines, s).value, t) == AppendToRelease(lines, s + t)
  {
    var i := RpmUtil.FirstWithPrefix(lines, "Release:").value;
    var once := lines[i := lines[i] + s];
    assert "Release:" <= lines[i] + s by {
      assert (lines[i] + s)[..|"Release:"|] == lines[i][..|"Release:"|];
    }
    assert FirstRelease(once, i);
    FirstReleaseUnique(once, i, RpmUtil.FirstWithPrefix(once, "Release:").value);
    assert (lines[i] + s) + t == lines[i] + (s + t);
    assert once[i := once[i] + t] == lines[i := lines[i] + (s + t)];
  }

  /** There is one first release line. */
  lemma FirstReleaseUnique(lines: seq<string>, i: nat, j: nat)
    requires FirstRelease(lines, i) && FirstRelease(lines, j)
    ensures i == j
  {
  }

  /** The spec-file part of `AppendRelease.execute`, `content` being what the spec file holds. */
  function AppendReleaseSpec(enabled: bool, suffix: string, content: string): Outcome
  {
    if !enabled then Outcome(None, None)
    else
      match Generic.ReadFileToList(content)
      case Failure(e) => Outcome(None, Some(e))
      case Success(lines) =>
        if RpmUtil.SpecAutorelease(lines) then Outcome(None, None)
        else
          match AppendToRelease(lines, suffix)
          case Failure(e) => Outcome(None, Some(e))
          case Success(edited) => Outcome(Some(Generic.WriteFileFromList(edited)), None)
  }

  /** The `enabled` and `suffix` parameters of a valid `AppendRelease` map. */
  function ReleaseParams(data: Value): (r: (bool, string))
    requires ValidParams(AppendRelease, data)
    ensures Get(data.entries, PyStr("enabled")) == Some(PyBool(r.0))
    ensures Get(data.entries, PyStr("suffix")) == Some(PyStr(r.1)) && r.1 != ""
  {
    RequiredPresent(AppendRelease, data, "enabled");
    RequiredPresent(AppendRelease, data, "suffix");
    (Param(AppendRelease, data, "enabled", BoolType).b, Param(AppendRelease, data, "suffix", StrType).s)
  }

  /** `AppendRelease.execute`: walks the spec's lines and extends the first release line in place. */
  method ExecuteAppendRelease(data: Value, content: string) returns (r: Outcome)
    requires ValidParams(AppendRelease, data)
    ensures r == AppendReleaseSpec(ReleaseParams(data).0, ReleaseParams(data).1, content)
  {
    var (enabled, suffix) := ReleaseParams(data);
    if !enabled {
      return Outcome(None, None);
    }
    var read := Generic.ReadFileToList(content);
    if read.Failure? {
      return Outcome(None, Some(read.error));
    }
    if RpmUtil.SpecAutorelease(read.value) {
      return Outcome(None, None);
    }
    var file := new LineList(read.value);
    var found := AppendToFirstRelease(file, suffix);
    if !found {
      return Outcome(None, Some(NoReleaseLine));
    }
    return Outcome(Some(Generic.WriteFileFromList(file.lines)), None);
  }

  /** The `for ... else` loop of `AppendRelease.execute`: extends the first release line of `file`, if there is one. */
  method AppendToFirstRelease(file: LineList, suffix: string) returns (found: bool)
    modifies file
    ensures found <==> AppendToRelease(old(file.lines), suffix).Success?
    ensures file.lines == if found then AppendToRelease(old(file.lines), suffix).value else old(file.lines)
  {
    var i := 0;
    while i < |file.lines|
      invariant i <= |file.lines| && file.lines == old(file.lines)
      invariant forall j :: 0 <= j < i ==> !RpmUtil.SpecLineRelease(file.lines[j])
    {
      if RpmUtil.SpecLineRelease(file.lines[i]) {
        assert FirstRelease(file.lines, i);
        FirstReleaseUnique(file.lines, i, RpmUtil.FirstWithPrefix(file.lines, "Release:").value);
        file.SetAt(i, file.lines[i] + suffix);
        return true;
      }
      i := i + 1;
    }
    return false;
  }

  /**
   * When `AppendRelease` writes, the spec has as many lines as before, the
   * first release line carries the suffix and every other line is as it
   * was; and when the spec was written from plain lines, reading back the
   * written file gives exactly that.
   */
  lemma AppendReleaseWrites(suffix: string, lines: seq<string>)
    requires lines != [] && Generic.PlainLines(lines) && !RpmUtil.SpecAutorelease(lines)
    requires AppendReleaseSpec(true, suffix, Generic.WriteFileFromList(lines)).written.Some?
    ensures exists i: nat :: (FirstRelease(lines, i) &&
                              AppendReleaseSpec(true, suffix, Generic.WriteFileFromList(lines)).written ==
                                Some(Generic.WriteFileFromList(lines[i := lines[i] + suffix])))
  {
    Generic.WriteThenReadRoundTrip(lines);
  }

  // ---------------------------------------------------------------------
  // AddFile

  /** The parameters of `AddFile.execute`, defaults filled in. */
  datatype AddFileArgs = AddFileArgs(name: string, fileType: string, request: SrpmUtil.Request, addToSpec: bool, upload: bool)

  /** The number a file request asks for: "latest" means the next free one. */
  function FileRequest(number: string): (r: SrpmUtil.Request)
    ensures r == SrpmUtil.Number(-1) <==> number == "latest"
    ensures r != SrpmUtil.Number(-1) ==> r == SrpmUtil.Text(number)
  {
    if number == "latest" then SrpmUtil.Number(-1) else SrpmUtil.Text(number)
  }

  /** The parameters of a valid `AddFile` map; `add_to_spec` defaults to true and `upload` to false. */
  function AddFileArguments(data: Value): (a: AddFileArgs)
    requires ValidParams(AddFile, data)
    ensures Get(data.entries, PyStr("name")) == Some(PyStr(a.name))
    ensures Get(data.entries, PyStr("type")) == Some(PyStr(a.fileType)) && a.fileType in {"patch", "source"}
    ensures exists number :: (Get(data.entries, PyStr("number")) == Some(PyStr(number)) && a.request == FileRequest(number))
    ensures a.addToSpec <==> !HasKey(data.entries, PyStr("add_to_spec")) || Get(data.entries, PyStr("add_to_spec")) == Some(PyBool(true))
    ensures a.upload <==> Get(data.entries, PyStr("upload")) == Some(PyBool(true))
  {
    RequiredPresent(AddFile, data, "name");
    RequiredPresent(AddFile, data, "type");
    RequiredPresent(AddFile, data, "number");
    var addToSpec := if HasKey(data.entries, PyStr("add_to_spec")) then Param(AddFile, data, "add_to_spec", BoolType).b else true;
    var upload := if HasKey(data.entries, PyStr("upload")) then Param(AddFile, data, "upload", BoolType).b else false;
    AddFileArgs(Param(AddFile, data, "name", StrType).s, Param(AddFile, data, "type", StrType).s,
                FileRequest(Param(AddFile, data, "number", StrType).s), addToSpec, upload)
  }

  /** The directive a file type is added under. */
  function FileDirective(fileType: string): SrpmUtil.Directive
  {
    if fileType == "patch" then SrpmUtil.Patch else SrpmUtil.Source
  }

  /** `AddFile.__copy_file` refuses to overwrite a file already in the package. */
  function TargetExists(name: string): Error
  {
    NotApplied("Target Exists: The file " + name + " already exists", "Failed")
  }

  /**
   * The spec-file part of `AddFile.execute`: `content` is what the spec
   * holds, `packageName` the package directory's name, `patchFile` whether
   * the package has a "*.patches" file, `targetExists` whether the copy
   * target is already there. An upload of a source is a stub with no effect.
   */
  function AddFileSpec(a: AddFileArgs, content: string, packageName: string, patchFile: bool, targetExists: bool): Outcome
  {
    match Generic.ReadFileToList(content)
    case Failure(e) => Outcome(None, Some(e))
    case Success(lines) =>
      var edit :=
        if a.addToSpec then SrpmUtil.AddNewSourceSpec(lines, a.name, FileDirective(a.fileType), packageName, patchFile, a.request)
        else SrpmUtil.SourceEdit(lines, None);
      if edit.error.Some? then Outcome(None, edit.error)
      else if !(a.upload && a.fileType == "source") && targetExists then Outcome(None, Some(TargetExists(a.name)))
      else Outcome(Some(Generic.WriteFileFromList(edit.lines)), None)
  }

  /** `AddFile.execute`, editing the spec's lines in place. */
  method ExecuteAddFile(data: Value, content: string, packageName: string, patchFile: bool, targetExists: bool)
    returns (r: Outcome)
    requires ValidParams(AddFile, data)
    ensures r == AddFileSpec(AddFileArguments(data), content, packageName, patchFile, targetExists)
  {
    var a := AddFileArguments(data);
    var read := Generic.ReadFileToList(content);
    if read.Failure? {
      return Outcome(None, Some(read.error));
    }
    var spec := new LineList(read.value);
    if a.addToSpec {
      var err := SrpmUtil.AddNewSource(spec, a.name, FileDirective(a.fileType), packageName, patchFile, a.request);
      if err.Some? {
        return Outcome(None, err);
      }
    }
    if !(a.upload && a.fileType == "source") && targetExists {
      return Outcome(None, Some(TargetExists(a.name)));
    }
    return Outcome(Some(Generic.WriteFileFromList(spec.lines)), None);
  }

  /**
   * When `AddFile` adds to the spec and writes, the spec file it writes keeps every
   * line of the old one in order and adds one directive line for the file
   * (and, for a patch, possibly its apply line).
   */
  lemma AddFileAddsDirective(a: AddFileArgs, lines: seq<string>, packageName: string, patchFile: bool, targetExists: bool)
    requires lines != [] && Generic.PlainLines(lines) && a.addToSpec
    requires AddFileSpec(a, Generic.WriteFileFromList(lines), packageName, patchFile, targetExists).error.None?
    ensures SrpmUtil.AssignedNumber(lines, FileDirective(a.fileType), a.request).Some?
    ensures var n := SrpmUtil.AssignedNumber(lines, FileDirective(a.fileType), a.request).value;
      exists result ::
      (AddFileSpec(a, Generic.WriteFileFromList(lines), packageName, patchFile, targetExists).written ==
         Some(Generic.WriteFileFromList(result)) &&
       SrpmUtil.AddsLine(lines, result, SrpmUtil.DirectiveLine(FileDirective(a.fileType), n, a.name),
                         if FileDirective(a.fileType) == SrpmUtil.Patch
                         then SrpmUtil.ApplyLines(a.name, SrpmUtil.GetPatchType(Rev(lines), packageName, patchFile), n)
                         else {}))
  {
    Generic.WriteThenReadRoundTrip(lines);
    SrpmUtil.AddNewSourcePreservesLines(lines, a.name, FileDirective(a.fileType), packageName, patchFile, a.request);
  }

  /** Without `add_to_spec`, `AddFile` writes the spec back as it read it. */
  lemma AddFileWithoutSpecKeepsSpec(a: AddFileArgs, lines: seq<string>, packageName: string, patchFile: bool, targetExists: bool)
    requires lines != [] && Generic.PlainLines(lines) && !a.addToSpec
    requires AddFileSpec(a, Generic.WriteFileFromList(lines), packageName, patchFile, targetExists).error.None?
    ensures AddFileSpec(a, Generic.WriteFileFromList(lines), packageName, patchFile, targetExists).written ==
      Some(Generic.WriteFileFromList(lines))
  {
    Generic.WriteThenReadRoundTrip(lines);
  }

  /** Only an uploaded source skips the copy, so only it can succeed when the copy target exists. */
  lemma ExistingTargetFails(a: AddFileArgs, content: string, packageName: string, patchFile: bool)
    requires AddFileSpec(a, content, packageName, patchFile, true).error.None?
    ensures a.upload && a.fileType == "source"
  {
  }

  // ---------------------------------------------------------------------
  // SpecChangelog

  /**
   * `SpecChangelog.execute`: reads the spec, skips a spec with
   * `%autochangelog`, parses it (`parsed` is what `spec_parse` returns) and
   * builds the entry in its in-memory copy of the lines, which it never
   * writes back: the spec file is left as it was.
   */
  function SpecChangelogSpec(content: string, parsed: Result<seq<string>, Error>): (r: Outcome)
    ensures r.Outcome? && r.written.None?
    ensures r.error.Some? <==> (Generic.ReadFileToList(content).Failure? ||
                                (!RpmUtil.SpecAutochangelog(Generic.ReadFileToList(content).value) && parsed.Failure?))
  {
    match Generic.ReadFileToList(content)
    case Failure(e) => Outcome(None, Some(e))
    case Success(lines) =>
      if RpmUtil.SpecAutochangelog(lines) then Outcome(None, None)
      else if parsed.Failure? then Outcome(None, Some(parsed.error))
      else Outcome(None, None)
  }

  // ---------------------------------------------------------------------
  // ActionQueue

  /** The `SpecChangelog` actions of a queue, in queue order. */
  function Changelogs(q: seq<Action>): (r: seq<Action>)
    ensures forall i :: 0 <= i < |r| ==> r[i].kind == SpecChangelog
  {
    if q == [] then []
    else Changelogs(q[..|q| - 1]) + (if q[|q| - 1].kind == SpecChangelog then [q[|q| - 1]] else [])
  }

  /** The other actions of a queue, in queue order. */
  function OtherActions(q: seq<Action>): (r: seq<Action>)
    ensures forall i :: 0 <= i < |r| ==> r[i].kind != SpecChangelog
  {
    if q == [] then []
    else OtherActions(q[..|q| - 1]) + (if q[|q| - 1].kind != SpecChangelog then [q[|q| - 1]] else [])
  }

  /**
   * The order `execute_all` runs a queue in: every other action in queue
   * order, then the changelog actions from the last queued to the first.
   */
  function ExecutionOrder(q: seq<Action>): seq<Action>
  {
    OtherActions(q) + Rev(Changelogs(q))
  }

  /** Each action of the queue is run once: the execution order is a permutation of the queue. */
  lemma {:induction false} ExecutionOrderIsPermutation(q: seq<Action>)
    ensures multiset(ExecutionOrder(q)) == multiset(q)
  {
    PartitionIsPermutation(q);
    RevIsPermutation(Changelogs(q));
  }

  lemma {:induction false} PartitionIsPermutation(q: seq<Action>)
    ensures multiset(OtherActions(q)) + multiset(Changelogs(q)) == multiset(q)
  {
    if q != [] {
      var init := q[..|q| - 1];
      PartitionIsPermutation(init);
      assert q == init + [q[|q| - 1]];
    }
  }

  lemma {:induction false} RevIsPermutation<T>(s: seq<T>)
    ensures multiset(Rev(s)) == multiset(s)
    decreases |s|
  {
    if s != [] {
      var tail := s[1..];
      RevIsPermutation(tail);
      assert Rev(s) == Rev(tail) + [s[0]];
      assert s == [s[0]] + tail;
    }
  }

  /** Changelog actions run after every other action. */
  lemma ChangelogsRunLast(q: seq<Action>, i: nat, j: nat)
    requires i < j < |ExecutionOrder(q)| && ExecutionOrder(q)[i].kind == SpecChangelog
    ensures ExecutionOrder(q)[j].kind == SpecChangelog
  {
    var others := OtherActions(q);
    assert i >= |others|;
  }

  /**
   * Running a sequence of actions on a package state: each action runs on
   * the state the previous one left, and the first error ends the run.
   */
  function RunAll<S>(actions: seq<Action>, state: S, run: (Action, S) -> Result<S, Error>): Result<S, Error>
    decreases |actions|
  {
    if actions == [] then Success(state)
    else
      match run(actions[0], state)
      case Failure(e) => Failure(e)
      case Success(next) => RunAll(actions[1..], next, run)
  }

  /** `ActionQueue`: the actions in the order they were added. */
  class ActionQueue {
    var queue: seq<Action>

    constructor ()
      ensures queue == []
    {
      queue := [];
    }

    method AddAction(a: Action)
      modifies this
      ensures queue == old(queue) + [a]
    {
      queue := queue + [a];
    }

    /**
     * `execute_all`: splits the queue into the changelog actions and the
     * rest, runs the rest in order, then the changelog actions in reverse.
     * `run` stands for `Action.execute` on the package state.
     */
    method ExecuteAll<S>(start: S, run: (Action, S) -> Result<S, Error>) returns (r: Result<S, Error>)
      ensures r == RunAll(ExecutionOrder(queue), start, run)
    {
      var changelogs, others := Partition(queue);
      RunAllConcat(others, Rev(changelogs), start, run);
      r := RunEach(others, start, run);
      if r.Success? {
        r := RunEachReversed(changelogs, r.value, run);
      }
    }
  }

  /** The first loop of `execute_all`: changelog actions to one list, the rest to another, each in queue order. */
  method Partition(q: seq<Action>) returns (changelogs: seq<Action>, others: seq<Action>)
    ensures changelogs == Changelogs(q) && others == OtherActions(q)
  {
    changelogs, others := [], [];
    var i := 0;
    while i < |q|
      invariant i <= |q|
      invariant changelogs == Changelogs(q[..i]) && others == OtherActions(q[..i])
    {
      assert q[..i + 1][..i] == q[..i];
      if q[i].kind == SpecChangelog {
        changelogs := changelogs + [q[i]];
      } else {
        others := others + [q[i]];
      }
      i := i + 1;
    }
    assert q[..|q|] == q;
  }

  /** Running one sequence after another is running their concatenation. */
  lemma {:induction false} RunAllConcat<S>(a: seq<Action>, b: seq<Action>, state: S, run: (Action, S) -> Result<S, Error>)
    ensures RunAll(a + b, state, run) ==
      match RunAll(a, state, run)
      case Failure(e) => Failure(e)
      case Success(next) => RunAll(b, next, run)
    decreases |a|
  {
    if a == [] {
      assert a + b == b;
    } else {
      assert (a + b)[1..] == a[1..] + b;
      match run(a[0], state)
      case Failure(_) =>
      case Success(next) => RunAllConcat(a[1..], b, next, run);
    }
  }

  /** The second loop of `execute_all`: the actions in order. */
  method RunEach<S>(actions: seq<Action>, start: S, run: (Action, S) -> Result<S, Error>) returns (r: Result<S, Error>)
    ensures r == RunAll(actions, start, run)
  {
    var state := start;
    var k := 0;
    while k < |actions|
      invariant k <= |actions|
      invariant RunAll(actions, start, run) == RunAll(actions[k..], state, run)
    {
      assert actions[k..][1..] == actions[k + 1..];
      var step := run(actions[k], state);
      if step.Failure? {
        return Failure(step.error);
      }
      state := step.value;
      k := k + 1;
    }
    return Success(state);
  }

  /** The third loop of `execute_all`: the actions from the last to the first. */
  method RunEachReversed<S>(actions: seq<Action>, start: S, run: (Action, S) -> Result<S, Error>) returns (r: Result<S, Error>)
    ensures r == RunAll(Rev(actions), start, run)
  {
    var state := start;
    var n := |actions|;
    while n > 0
      invariant 0 <= n <= |actions|
      invariant RunAll(Rev(actions), start, run) == RunAll(Rev(actions)[|actions| - n..], state, run)
    {
      assert Rev(actions)[|actions| - n..][1..] == Rev(actions)[|actions| - (n - 1)..];
      var step := run(actions[n - 1], state);
      if step.Failure? {
        return Failure(step.error);
      }
      state := step.value;
      n := n - 1;
    }
    return Success(state);
  }

  // ---------------------------------------------------------------------
  // Config

  /** `"patch" in loaded`: key, element or substring membership; other objects raise. */
  function ContainsPatch(loaded: Value): (r: Result<bool, Error>)
    ensures r.Failure? ==> r.error.kind == PyTypeError
    ensures loaded.PyDict? ==> r == Success(HasKey(loaded.entries, PyStr("patch")))
  {
    match loaded
    case PyDict(entries) => Success(HasKey(entries, PyStr("patch")))
    case PyList(items) => Success(PyStr("patch") in items)
    case PyTuple(items) => Success(PyStr("patch") in items)
    case PyStr(s) => Success(Contains(s, "patch"))
    case _ => Failure(Error(PyTypeError, "argument of type is not iterable"))
  }

  /** An entry of a patch item: a known action name and a list of parameter maps. */
  predicate ActionEntry(e: (Value, Value))
  {
    ActionByName(e.0).Some? && e.1.PyList?
  }

  /** Every item of the "patch" list is a map whose entries are all action entries. */
  predicate WellFormedPatchList(items: seq<Value>)
  {
    forall i :: 0 <= i < |items| ==> items[i].PyDict? && forall j :: 0 <= j < |items[i].entries| ==> ActionEntry(items[i].entries[j])
  }

  /** A "patch" value `__validate_config` accepts: a list of well-formed items. */
  predicate WellFormedPatch(patch: Value)
  {
    patch.PyList? && WellFormedPatchList(patch.items)
  }

  /** A loaded configuration `__validate_config` accepts. */
  predicate WellFormedConfig(loaded: Value)
  {
    loaded.PyDict? && HasKey(loaded.entries, PyStr("patch")) && WellFormedPatch(Get(loaded.entries, PyStr("patch")).value)
  }

  /** The loop over one item's entries: an unknown name or a value that is not a list. */
  function CheckEntries(entries: seq<(Value, Value)>): (r: Option<Error>)
    ensures r.None? <==> forall j :: 0 <= j < |entries| ==> ActionEntry(entries[j])
    ensures r.Some? ==> r.value.kind == PyTypeError
  {
    if entries == [] then None
    else if ActionByName(entries[0].0).None? then Some(MissingReason("PatchConfigValueError"))
    else if !entries[0].1.PyList? then Some(MissingReason("PatchConfigTypeError"))
    else
      var rest := CheckEntries(entries[1..]);
      assert forall j :: 1 <= j < |entries| ==> entries[j] == entries[1..][j - 1];
      rest
  }

  /** The loop over the "patch" list: an item that is not a map has no `items`. */
  function CheckPatchList(items: seq<Value>): (r: Option<Error>)
    ensures r.None? <==> WellFormedPatchList(items)
    ensures r.Some? ==> r.value.kind in {PyTypeError, PyAttributeError}
  {
    if items == [] then None
    else if !items[0].PyDict? then Some(Error(PyAttributeError, "object has no attribute 'items'"))
    else if CheckEntries(items[0].entries).Some? then CheckEntries(items[0].entries)
    else
      var rest := CheckPatchList(items[1..]);
      assert forall i :: 1 <= i < |items| ==> items[i] == items[1..][i - 1];
      rest
  }

  /**
   * `Config.__validate_config`. Its own raises all build their error with
   * one argument, so each surfaces as a `TypeError`; a non-map holding
   * "patch" and a list item that is not a map fail on a missing method.
   */
  function ValidateConfig(loaded: Value): (r: Option<Error>)
    ensures r.None? <==> WellFormedConfig(loaded)
    ensures r.Some? ==> r.value.kind in {PyTypeError, PyAttributeError}
    ensures !Truthy(loaded) ==> r == Some(MissingReason("PatchConfigValueError"))
  {
    if !Truthy(loaded) then Some(MissingReason("PatchConfigValueError"))
    else if !loaded.PyDict? then Some(NonMapConfigError(loaded))
    else if !HasKey(loaded.entries, PyStr("patch")) then Some(MissingReason("PatchConfigValueError"))
    else CheckPatchValue(Get(loaded.entries, PyStr("patch")).value)
  }

  /**
   * The error for a loaded configuration that is not a map: without
   * "patch" in it, the missing-patch error; with it, no `get` method.
   */
  function NonMapConfigError(loaded: Value): (e: Error)
    ensures e.kind in {PyTypeError, PyAttributeError}
  {
    match ContainsPatch(loaded)
    case Failure(e) => e
    case Success(found) =>
      if found then Error(PyAttributeError, "object has no attribute 'get'") else MissingReason("PatchConfigValueError")
  }

  /** The checks of the value under "patch": not `None`, a list, and each item well formed. */
  function CheckPatchValue(patch: Value): (r: Option<Error>)
    ensures r.None? <==> WellFormedPatch(patch)
    ensures r.Some? ==> r.value.kind in {PyTypeError, PyAttributeError}
  {
    if patch == PyNone then Some(MissingReason("PatchConfigValueError"))
    else if !patch.PyList? then Some(MissingReason("PatchConfigTypeError"))
    else CheckPatchList(patch.items)
  }

  /** One action per parameter map of an entry's list. */
  function ListActions(k: ActionKind, datas: seq<Value>): (r: seq<Action>)
    ensures |r| == |datas| && forall l :: 0 <= l < |datas| ==> r[l] == Action(k, datas[l])
  {
    seq(|datas|, l requires 0 <= l < |datas| => Action(k, datas[l]))
  }

  /** The actions of one entry: its action class, once per parameter map (none for an entry validation refuses). */
  function OneEntryActions(e: (Value, Value)): seq<Action>
  {
    match ActionByName(e.0)
    case Some(k) => if e.1.PyList? then ListActions(k, e.1.items) else []
    case None => []
  }

  /** The actions of one item's entries, in entry order. */
  function EntryActions(entries: seq<(Value, Value)>): seq<Action>
  {
    if entries == [] then []
    else EntryActions(entries[..|entries| - 1]) + OneEntryActions(entries[|entries| - 1])
  }

  /** The actions of the whole "patch" list, in document order (none for an item that is not a map). */
  function PatchListActions(items: seq<Value>): seq<Action>
  {
    if items == [] then []
    else
      var last := items[|items| - 1];
      PatchListActions(items[..|items| - 1]) + (if last.PyDict? then EntryActions(last.entries) else [])
  }

  /** `validate` run on an action's parameters. */
  function CheckAction(a: Action): Option<Error>
  {
    Validate(a.kind, a.data)
  }

  /** The error of the first element `check` refuses. */
  function FirstFailure<T>(xs: seq<T>, check: T -> Option<Error>): (r: Option<Error>)
    ensures r.Some? ==> exists i :: 0 <= i < |xs| && check(xs[i]) == r
  {
    if xs == [] then None
    else if check(xs[0]).Some? then check(xs[0])
    else
      var rest := FirstFailure(xs[1..], check);
      assert forall i :: 1 <= i < |xs| ==> xs[i] == xs[1..][i - 1];
      rest
  }

  /** No refusal means every element is accepted. */
  lemma {:induction false} NoFailureMeansAllAccepted<T>(xs: seq<T>, check: T -> Option<Error>)
    ensures FirstFailure(xs, check).None? <==> forall i :: 0 <= i < |xs| ==> check(xs[i]).None?
  {
    if xs != [] {
      NoFailureMeansAllAccepted(xs[1..], check);
      assert forall i :: 1 <= i < |xs| ==> xs[i] == xs[1..][i - 1];
    }
  }

  /** The elements before the first one `check` refuses. */
  function AcceptedPrefix<T>(xs: seq<T>, check: T -> Option<Error>): (r: seq<T>)
    ensures r <= xs
  {
    if xs == [] || check(xs[0]).Some? then []
    else [xs[0]] + AcceptedPrefix(xs[1..], check)
  }

  /** Checking a run with no refusal and then another run. */
  lemma {:induction false} AcceptedThen<T>(a: seq<T>, b: seq<T>, check: T -> Option<Error>)
    requires FirstFailure(a, check).None?
    ensures FirstFailure(a + b, check) == FirstFailure(b, check)
    ensures AcceptedPrefix(a + b, check) == a + AcceptedPrefix(b, check)
  {
    if a == [] {
      assert a + b == b;
    } else {
      var tail := a[1..];
      assert check(a[0]).None? && FirstFailure(a, check) == FirstFailure(tail, check);
      AcceptedThen(tail, b, check);
      var ab := a + b;
      assert ab[0] == a[0] && ab[1..] == tail + b;
      assert FirstFailure(ab, check) == FirstFailure(tail + b, check);
      assert AcceptedPrefix(ab, check) == [a[0]] + AcceptedPrefix(tail + b, check);
      assert [a[0]] + (tail + AcceptedPrefix(b, check)) == a + AcceptedPrefix(b, check);
    }
  }

  /** Checking a run with a refusal and then another run: the second is never reached. */
  lemma {:induction false} RefusedThen<T>(a: seq<T>, b: seq<T>, check: T -> Option<Error>)
    requires FirstFailure(a, check).Some?
    ensures FirstFailure(a + b, check) == FirstFailure(a, check)
    ensures AcceptedPrefix(a + b, check) == AcceptedPrefix(a, check)
  {
    assert (a + b)[0] == a[0] && (a + b)[1..] == a[1..] + b;
    if check(a[0]).None? {
      RefusedThen(a[1..], b, check);
    }
  }

  /** With no refusal, every element is accepted. */
  lemma AllAccepted<T>(xs: seq<T>, check: T -> Option<Error>)
    requires FirstFailure(xs, check).None?
    ensures AcceptedPrefix(xs, check) == xs
  {
    AcceptedThen(xs, [], check);
    assert xs + [] == xs;
  }

  /** The actions of the "patch" list split at any item. */
  lemma {:induction false} EntryActionsSplit(entries: seq<(Value, Value)>, j: nat)
    requires j <= |entries|
    ensures EntryActions(entries) == EntryActions(entries[..j]) + EntryActions(entries[j..])
    decreases |entries|
  {
    if j < |entries| {
      var init := entries[..|entries| - 1];
      EntryActionsSplit(init, j);
      assert init[..j] == entries[..j];
      assert entries[j..][..|entries[j..]| - 1] == init[j..];
    } else {
      assert entries[..j] == entries;
      assert entries[j..] == [];
    }
  }

  lemma {:induction false} PatchListActionsSplit(items: seq<Value>, i: nat)
    requires i <= |items|
    ensures PatchListActions(items) == PatchListActions(items[..i]) + PatchListActions(items[i..])
    decreases |items|
  {
    if i < |items| {
      var init := items[..|items| - 1];
      PatchListActionsSplit(init, i);
      assert init[..i] == items[..i];
      assert items[i..][..|items[i..]| - 1] == init[i..];
    } else {
      assert items[..i] == items;
      assert items[i..] == [];
    }
  }

  /** A run that fails after an accepted run: the error is the failing run's, and what was accepted before it is kept. */
  lemma StepRefused<T>(done: seq<T>, step: seq<T>, rest: seq<T>, check: T -> Option<Error>)
    requires FirstFailure(done, check).None? && FirstFailure(step, check).Some?
    ensures FirstFailure(done + step + rest, check) == FirstFailure(step, check)
    ensures AcceptedPrefix(done + step + rest, check) == done + AcceptedPrefix(step, check)
  {
    assert done + step + rest == done + (step + rest);
    AcceptedThen(done, step + rest, check);
    RefusedThen(step, rest, check);
  }

  /** An accepted run after an accepted run. */
  lemma StepAccepted<T>(done: seq<T>, step: seq<T>, check: T -> Option<Error>)
    requires FirstFailure(done, check).None? && FirstFailure(step, check).None?
    ensures FirstFailure(done + step, check).None? && AcceptedPrefix(step, check) == step
  {
    AcceptedThen(done, step, check);
    AllAccepted(step, check);
  }

  /** Checking one more element after an accepted prefix. */
  lemma PrefixStep<T>(xs: seq<T>, l: nat, check: T -> Option<Error>)
    requires l < |xs| && FirstFailure(xs[..l], check).None?
    ensures check(xs[l]).Some? ==> FirstFailure(xs, check) == check(xs[l]) && AcceptedPrefix(xs, check) == xs[..l]
    ensures check(xs[l]).None? ==> FirstFailure(xs[..l + 1], check).None? && xs[..l + 1] == xs[..l] + [xs[l]]
  {
    var rest := xs[l..];
    assert xs == xs[..l] + rest;
    AcceptedThen(xs[..l], rest, check);
    assert rest[0] == xs[l];
    if check(xs[l]).None? {
      var one := [xs[l]];
      assert xs[..l + 1] == xs[..l] + one;
      assert one[1..] == [];
      AcceptedThen(xs[..l], one, check);
    }
  }

  /**
   * The innermost loop of `__process_config`: one action per parameter map,
   * each checked by `check` (the constructor's `validate`) as it is built.
   */
  method AddListActions(q: ActionQueue, k: ActionKind, datas: seq<Value>, check: Action -> Option<Error>) returns (err: Option<Error>)
    modifies q
    ensures q.queue == old(q.queue) + AcceptedPrefix(ListActions(k, datas), check)
    ensures err == FirstFailure(ListActions(k, datas), check)
  {
    ghost var all := ListActions(k, datas);
    var l := 0;
    while l < |datas|
      invariant l <= |datas| && q.queue == old(q.queue) + all[..l]
      invariant FirstFailure(all[..l], check).None?
    {
      var e := check(Action(k, datas[l]));
      PrefixStep(all, l, check);
      if e.Some? {
        return e;
      }
      q.AddAction(Action(k, datas[l]));
      l := l + 1;
    }
    assert all[..l] == all;
    AllAccepted(all, check);
    return None;
  }

  /** The actions of one more entry are refused after an accepted run of entries: the item's run ends there. */
  lemma EntryRefused(entries: seq<(Value, Value)>, j: nat, check: Action -> Option<Error>)
    requires j < |entries| && FirstFailure(EntryActions(entries[..j]), check).None?
    requires FirstFailure(OneEntryActions(entries[j]), check).Some?
    ensures FirstFailure(EntryActions(entries), check) == FirstFailure(OneEntryActions(entries[j]), check)
    ensures AcceptedPrefix(EntryActions(entries), check) ==
      EntryActions(entries[..j]) + AcceptedPrefix(OneEntryActions(entries[j]), check)
  {
    var done, step, rest := EntryActions(entries[..j]), OneEntryActions(entries[j]), EntryActions(entries[j + 1..]);
    EntryActionsStep(entries, j);
    EntryActionsSplit(entries, j + 1);
    StepRefused(done, step, rest, check);
  }

  /** The actions of one more entry are accepted after an accepted run of entries. */
  lemma EntryAccepted(entries: seq<(Value, Value)>, j: nat, check: Action -> Option<Error>)
    requires j < |entries| && FirstFailure(EntryActions(entries[..j]), check).None?
    requires FirstFailure(OneEntryActions(entries[j]), check).None?
    ensures FirstFailure(EntryActions(entries[..j + 1]), check).None?
    ensures EntryActions(entries[..j + 1]) == EntryActions(entries[..j]) + AcceptedPrefix(OneEntryActions(entries[j]), check)
  {
    EntryActionsStep(entries, j);
    StepAccepted(EntryActions(entries[..j]), OneEntryActions(entries[j]), check);
  }

  /** `Config.ACTIONS.get(name)` on an accepted entry, and the actions that entry yields. */
  function EntryAction(e: (Value, Value)): (k: ActionKind)
    requires ActionEntry(e)
    ensures OneEntryActions(e) == ListActions(k, e.1.items)
  {
    ActionByName(e.0).value
  }

  lemma EntryActionsStep(entries: seq<(Value, Value)>, j: nat)
    requires j < |entries|
    ensures EntryActions(entries[..j + 1]) == EntryActions(entries[..j]) + OneEntryActions(entries[j])
  {
    assert entries[..j + 1][..j] == entries[..j];
  }

  lemma PatchListActionsStep(items: seq<Value>, i: nat)
    requires i < |items| && items[i].PyDict?
    ensures PatchListActions(items[..i + 1]) == PatchListActions(items[..i]) + EntryActions(items[i].entries)
  {
    assert items[..i + 1][..i] == items[..i];
  }

  /** The actions of one more item are refused after an accepted run of items. */
  lemma ItemRefused(items: seq<Value>, i: nat, check: Action -> Option<Error>)
    requires i < |items| && items[i].PyDict? && FirstFailure(PatchListActions(items[..i]), check).None?
    requires FirstFailure(EntryActions(items[i].entries), check).Some?
    ensures FirstFailure(PatchListActions(items), check) == FirstFailure(EntryActions(items[i].entries), check)
    ensures AcceptedPrefix(PatchListActions(items), check) ==
      PatchListActions(items[..i]) + AcceptedPrefix(EntryActions(items[i].entries), check)
  {
    PatchListActionsStep(items, i);
    PatchListActionsSplit(items, i + 1);
    StepRefused(PatchListActions(items[..i]), EntryActions(items[i].entries), PatchListActions(items[i + 1..]), check);
  }

  /** The actions of one more item are accepted after an accepted run of items. */
  lemma ItemAccepted(items: seq<Value>, i: nat, check: Action -> Option<Error>)
    requires i < |items| && items[i].PyDict? && FirstFailure(PatchListActions(items[..i]), check).None?
    requires FirstFailure(EntryActions(items[i].entries), check).None?
    ensures FirstFailure(PatchListActions(items[..i + 1]), check).None?
    ensures PatchListActions(items[..i + 1]) == PatchListActions(items[..i]) + AcceptedPrefix(EntryActions(items[i].entries), check)
  {
    PatchListActionsStep(items, i);
    StepAccepted(PatchListActions(items[..i]), EntryActions(items[i].entries), check);
  }

  /** The middle loop of `__process_config`: the entries of one item, in order. */
  method AddEntryActions(q: ActionQueue, entries: seq<(Value, Value)>, check: Action -> Option<Error>) returns (err: Option<Error>)
    requires forall j :: 0 <= j < |entries| ==> ActionEntry(entries[j])
    modifies q
    ensures q.queue == old(q.queue) + AcceptedPrefix(EntryActions(entries), check)
    ensures err == FirstFailure(EntryActions(entries), check)
  {
    var j := 0;
    while j < |entries|
      invariant j <= |entries| && q.queue == old(q.queue) + EntryActions(entries[..j])
      invariant FirstFailure(EntryActions(entries[..j]), check).None?
    {
      var k := EntryAction(entries[j]);
      ghost var done := EntryActions(entries[..j]);
      err := AddListActions(q, k, entries[j].1.items, check);
      Regroup(old(q.queue), done, AcceptedPrefix(OneEntryActions(entries[j]), check));
      if err.Some? {
        EntryRefused(entries, j, check);
        return;
      }
      EntryAccepted(entries, j, check);
      j := j + 1;
    }
    assert entries[..j] == entries;
    AllAccepted(EntryActions(entries), check);
    return None;
  }

  /** The outer loop of `__process_config`: the items of the "patch" list, in order. */
  method AddPatchListActions(q: ActionQueue, items: seq<Value>, check: Action -> Option<Error>) returns (err: Option<Error>)
    requires WellFormedPatchList(items)
    modifies q
    ensures q.queue == old(q.queue) + AcceptedPrefix(PatchListActions(items), check)
    ensures err == FirstFailure(PatchListActions(items), check)
  {
    var i := 0;
    while i < |items|
      invariant i <= |items| && q.queue == old(q.queue) + PatchListActions(items[..i])
      invariant FirstFailure(PatchListActions(items[..i]), check).None?
    {
      assert items[i].PyDict?;
      ghost var done := PatchListActions(items[..i]);
      err := AddEntryActions(q, items[i].entries, check);
      Regroup(old(q.queue), done, AcceptedPrefix(EntryActions(items[i].entries), check));
      if err.Some? {
        ItemRefused(items, i, check);
        return;
      }
      ItemAccepted(items, i, check);
      i := i + 1;
    }
    assert items[..i] == items;
    AllAccepted(PatchListActions(items), check);
    return None;
  }

  /** The "patch" list of an accepted configuration. */
  function ConfigItems(loaded: Value): (items: seq<Value>)
    requires WellFormedConfig(loaded)
    ensures WellFormedPatchList(items)
  {
    Get(loaded.entries, PyStr("patch")).value.items
  }

  /** Every action's parameters pass `validate`. */
  predicate AllValid(actions: seq<Action>)
  {
    forall i :: 0 <= i < |actions| ==> Validate(actions[i].kind, actions[i].data).None?
  }

  /**
   * `Config(config)`: the configuration must be given as a path; the loaded
   * document (the YAML parser's result) must pass `__validate_config`; then
   * every parameter map becomes an action, in document order, and the first
   * one `validate` refuses ends the load with its error.
   */
  function LoadConfig(loaded: Value, pathLike: bool): (r: Result<seq<Action>, Error>)
    ensures r.Success? <==> pathLike && WellFormedConfig(loaded) && AllValid(PatchListActions(ConfigItems(loaded)))
    ensures r.Success? ==> r.value == PatchListActions(ConfigItems(loaded))
    ensures r.Failure? ==> r.error.kind in {PyTypeError, PyAttributeError, PatchConfigValueError}
  {
    if !pathLike then Failure(MissingReason("PatchConfigTypeError"))
    else
      match ValidateConfig(loaded)
      case Some(e) => Failure(e)
      case None =>
        var actions := PatchListActions(ConfigItems(loaded));
        NoFailureMeansAllAccepted(actions, CheckAction);
        match FirstFailure(actions, CheckAction)
        case Some(e) => Failure(e)
        case None => Success(actions)
  }

  /** `Config`: the loaded document, the queue of its actions, and the never-set `spec_modified` flag. */
  class Config {
    var loaded: Value
    var queue: ActionQueue
    var specModified: bool

    constructor (loaded: Value, queue: ActionQueue)
      ensures this.loaded == loaded && this.queue == queue && !specModified
    {
      this.loaded := loaded;
      this.queue := queue;
      specModified := false;
    }

    /** `run`: executes the queue. */
    method Run<S>(start: S, run: (Action, S) -> Result<S, Error>) returns (r: Result<S, Error>)
      ensures r == RunAll(ExecutionOrder(queue.queue), start, run)
    {
      r := queue.ExecuteAll(start, run);
    }
  }

  /** Building a `Config`: the checks of `__init__` and `__process_config`, and the loading loops. */
  method NewConfig(loaded: Value, pathLike: bool) returns (r: Result<Config, Error>)
    ensures r.Failure? <==> LoadConfig(loaded, pathLike).Failure?
    ensures r.Failure? ==> r.error == LoadConfig(loaded, pathLike).error
    ensures r.Success? ==> fresh(r.value) && fresh(r.value.queue) && r.value.loaded == loaded && !r.value.specModified &&
                           r.value.queue.queue == LoadConfig(loaded, pathLike).value
  {
    if !pathLike {
      return Failure(MissingReason("PatchConfigTypeError"));
    }
    var invalid := ValidateConfig(loaded);
    if invalid.Some? {
      return Failure(invalid.value);
    }
    var q := new ActionQueue();
    var items := ConfigItems(loaded);
    var err := AddPatchListActions(q, items, CheckAction);
    if err.Some? {
      return Failure(err.value);
    }
    AllAccepted(PatchListActions(items), CheckAction);
    assert [] + PatchListActions(items) == PatchListActions(items);
    var c := new Config(loaded, q);
    return Success(c);
  }
}
