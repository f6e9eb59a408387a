# pv2 spec editing and build helpers, modelled in Dafny

This project models the core of `pv2`, the Python toolkit the Peridot build
system uses to import source RPMs, patch their spec files and drive `mock`.

- **Declarative spec-file patch editor** (`Editor`, `Processor`, `Lines`).
  - A YAML `patch` list is checked (`Config.__validate_config`) and becomes a
    queue of validated actions (`Action.validate`).
  - `ActionQueue.execute_all` runs the other actions in order, then the
    `SpecChangelog` actions in reverse.
  - The line processor `data_processor` walks the spec's lines with an index, a
    counter and a `changes` flag, editing the list in place. It pops a line,
    overwrites it, or assigns or deletes a slice.
  - `SearchAndReplace`, `DeleteLine`, `AppendRelease` and the spec path of
    `AddFile` are built on top.
- **Directive numbering** (`SrpmUtil`, for `srpmproc/util.py`).
  - `add_new_source` reverses the spec and finds the last
    `Source<N>:`/`Patch<N>:` line while tracking `%endif` blocks.
  - It chooses or checks the number, inserts the directive and, for a patch,
    an apply line in the package's own style. Then it reverses back.
- **Supporting logic.**
  - Spec predicates and RPM header arithmetic (`RpmUtil`).
  - Byte, hash and boolean helpers and the one-line-per-element file format (`Generic`).
  - The error taxonomy with its fault codes and messages (`Errors`).
  - Patch-configuration precedence, branch defaulting and fault selection of the importer (`Patching`).
  - The lookaside metadata format (`Operation`).
  - The mock configuration emitters and registries (`MockConfigUtils`, `MockConfig`).
  - The mock command line and exit-code classifier (`MockRunner`).
  - Module stream strings (`Modularity`).
  - The `clean_returned_dict` decorator (`Decorators`).

Python values that cross these interfaces (YAML documents, keyword arguments,
plugin options) are the `PyValue.Value` datatype. Its truthiness, `str()`,
`repr()` and dict lookup follow Python. Strings are `seq<char>`. Bytes are a
`Byte` newtype. Exceptions are `Error(kind, message)` values, and the class
hierarchy is modelled as a `Parent` function. Where the source mutates an
object, the model is a class: `LineList` for the spec list, `ActionQueue`,
`Config`, `DnfConfig`, `MockConfig`, `MockErrorResulter`. Loops are methods
proved against a specification function, and the lemmas are stated about that
function.

Some inputs are parameters of the model:

- the file system: file contents are given as strings;
- the YAML parser: the loaded document is given;
- the JSON encoder: a `Value -> string` function;
- `glob` results;
- the regex engine of the regex mode: a substitution function;
- the runs of patch configurations;
- mock's exit code and the result directory it reports.

The older copies `util/rpmutil.py`, `util/generic.py` and `mock/runner.py`
behave like their `pv2/` counterparts on everything modelled. The same
members model both copies, and the table cites the copy whose lines were
followed.

## Model

| member | source | states |
|---|---|---|
| Editor.ActionByName | pv2/srpmproc/editor.py:658-668 | exactly the nine action names of `Config.ACTIONS` are known, each mapped to its action class |
| Editor.MissingKeys | pv2/srpmproc/editor.py:48-56 | a key is reported missing exactly when it is required and absent from the map |
| Editor.HasUnexpectedKey | pv2/srpmproc/editor.py:58-63 | holds exactly when some key of the map is not among the action's allowed keys |
| Editor.CheckValues | pv2/srpmproc/editor.py:64-75 | no error exactly when every present allowed key holds a value of its declared type that is not None, "", [] or {}; otherwise the error for the first such key |
| Editor.Validate | pv2/srpmproc/editor.py:48-75 | a parameter map is accepted exactly when no required key is missing, no key is unexpected and every value passes; `add_file` also needs `type` "patch" or "source" (editor.py 419-428); only the missing-keys error keeps its kind, the one-argument raises give TypeError |
| Editor.Param | pv2/srpmproc/editor.py:64-75 | in an accepted map, an allowed key that is present holds a non-empty value of its declared type |
| Editor.RequiredPresent | pv2/srpmproc/editor.py:48-56 | an accepted map holds every required key |
| Editor.ShapeLines | pv2/srpmproc/editor.py:280-281 | the find and replacement texts become a non-empty list of lines: the text itself when it has no "\n" |
| Editor.ShapeLinesJoin | pv2/srpmproc/editor.py:280-281 | joining the shaped lines with "\n" gives the text back when its line breaks are all "\n" and it does not end with one |
| Editor.SearchAndReplaceCall | pv2/srpmproc/editor.py:264-295 | the `data_processor` arguments: shaped find and replacement lines, `count` defaulting to -1, `regex` defaulting to false |
| Editor.ExecuteSearchAndReplace | pv2/srpmproc/editor.py:264-295 | the action's outcome is the `data_processor` outcome for those arguments |
| Editor.DeleteParams | pv2/srpmproc/editor.py:316-324 | each entry is deleted with non-empty find lines, no replacement, no limit and no regex |
| Editor.ExecuteDeleteLine | pv2/srpmproc/editor.py:304-324 | the entries are processed in order on the file as the previous one left it; the first raise ends the action and the earlier writes stay |
| Editor.DeletionEnds | pv2/srpmproc/editor.py:316-324 | a delete-mode `data_processor` call always finishes |
| Editor.DeleteLineEnds | pv2/srpmproc/editor.py:314-324 | `DeleteLine` always finishes, however many entries it has |
| Editor.AppendToRelease | pv2/srpmproc/editor.py:350-355 | the suffix is appended to the first line starting "Release:" and every other line is kept; with no such line, NotAppliedError |
| Editor.AppendToReleaseTwice | pv2/srpmproc/editor.py:350-353 | appending two suffixes one after the other equals appending their concatenation once |
| Editor.FirstReleaseUnique | pv2/srpmproc/editor.py:350-353 | the first release line is unique: no earlier line starts "Release:" |
| Editor.ReleaseParams | pv2/srpmproc/editor.py:330-331 | an accepted `AppendRelease` map holds a boolean `enabled` and a string `suffix` |
| Editor.ExecuteAppendRelease | pv2/srpmproc/editor.py:333-357 | disabled or `%autorelease` specs are left alone; otherwise the first release line gets the suffix in place, or NotAppliedError when there is none |
| Editor.AppendToFirstRelease | pv2/srpmproc/editor.py:350-355 | the `for ... else` loop updates the list in place to `AppendToRelease` of the old list, or reports that there is no release line |
| Editor.AppendReleaseWrites | pv2/srpmproc/editor.py:333-357 | when it writes, the spec keeps its length, the first release line ends with the suffix and every other line is unchanged |
| Editor.FileRequest | pv2/srpmproc/editor.py:451 | "latest" asks for the next number; any other value is passed on as given |
| Editor.AddFileArguments | pv2/srpmproc/editor.py:449-457 | an accepted `AddFile` map gives name, type and number; `add_to_spec` defaults to true and `upload` to false |
| Editor.ExecuteAddFile | pv2/srpmproc/editor.py:445-491 | reads the spec, runs `add_new_source` in place when asked, refuses an existing copy target unless an uploaded source, then writes the spec |
| Editor.AddFileAddsDirective | pv2/srpmproc/editor.py:474-491 | when `AddFile` edits and writes, the numbering step chose a number, and the spec file written is the old one with exactly one directive line carrying it inserted and, for a patch, at most one apply line from `SrpmUtil.ApplyLines` |
| Editor.AddFileWithoutSpecKeepsSpec | pv2/srpmproc/editor.py:474-491 | without `add_to_spec` the spec is written back as read |
| Editor.ExistingTargetFails | pv2/srpmproc/editor.py:439-440 | when the copy target exists, only an uploaded source can succeed |
| Editor.SpecChangelogSpec | pv2/srpmproc/editor.py:367-393 | nothing is ever written; an error arises exactly when the spec cannot be read, or when a spec without `%autochangelog` cannot be parsed |
| Editor.Changelogs | pv2/srpmproc/editor.py:639-646 | the `SpecChangelog` actions of a queue, in queue order |
| Editor.OtherActions | pv2/srpmproc/editor.py:639-646 | the other actions of a queue, in queue order |
| Editor.ActionQueue.constructor | pv2/srpmproc/editor.py:626-627 | a new queue holds no action |
| Editor.ExecutionOrderIsPermutation | pv2/srpmproc/editor.py:635-652 | each queued action runs exactly once: the execution order is a permutation of the queue |
| Editor.PartitionIsPermutation | pv2/srpmproc/editor.py:642-646 | the two lists of the partition together hold the queue's actions with their multiplicities |
| Editor.RevIsPermutation | pv2/srpmproc/editor.py:651-652 | `reversed` keeps every action with its multiplicity |
| Editor.ChangelogsRunLast | pv2/srpmproc/editor.py:648-652 | every changelog action runs after every other action, and the changelog actions run in reverse queue order |
| Editor.ActionQueue.AddAction | pv2/srpmproc/editor.py:629-633 | the queue becomes the old queue with the action appended |
| Editor.ActionQueue.ExecuteAll | pv2/srpmproc/editor.py:635-652 | runs the non-changelog actions in order and then the changelog actions in reverse order, and leaves the queue unchanged |
| Editor.Partition | pv2/srpmproc/editor.py:639-646 | the first loop yields exactly `Changelogs` and `OtherActions` of the queue |
| Editor.RunAllConcat | pv2/srpmproc/editor.py:648-652 | running one list of actions and then another is running their concatenation |
| Editor.RunEach | pv2/srpmproc/editor.py:648-649 | the second loop runs the actions in list order |
| Editor.RunEachReversed | pv2/srpmproc/editor.py:651-652 | the third loop runs the actions from last to first |
| Editor.ContainsPatch | pv2/srpmproc/editor.py:719 | `"patch" in loaded` is key membership for a map, element membership for a list and substring search for a string; other values raise TypeError |
| Editor.CheckEntries | pv2/srpmproc/editor.py:737-746 | an item's entries pass exactly when each names a known action and holds a list |
| Editor.CheckPatchList | pv2/srpmproc/editor.py:736-746 | the "patch" list passes exactly when every item is a map whose entries pass |
| Editor.ValidateConfig | pv2/srpmproc/editor.py:714-746 | the configuration is refused exactly when it is falsy, lacks "patch", holds None or a non-list there, or has a malformed item; the refusals carry the kinds Python actually raises |
| Editor.NonMapConfigError | pv2/srpmproc/editor.py:719-725 | a loaded configuration that is not a map fails with the missing-patch error, or with AttributeError when it holds "patch" |
| Editor.CheckPatchValue | pv2/srpmproc/editor.py:725-746 | the value under "patch" is accepted exactly when it is a list of well-formed items |
| Editor.ListActions | pv2/srpmproc/editor.py:710-712 | one action per parameter map of an entry's list, in order |
| Editor.FirstFailure | pv2/srpmproc/editor.py:710-712 | the error of the first refused element, and none exactly when every element is accepted |
| Editor.NoFailureMeansAllAccepted | pv2/srpmproc/editor.py:710-712 | no refusal means every element is accepted |
| Editor.AcceptedPrefix | pv2/srpmproc/editor.py:710-712 | the elements before the first refused one are all accepted |
| Editor.AcceptedThen | pv2/srpmproc/editor.py:707-712 | checking an accepted run and then another run is checking their concatenation |
| Editor.RefusedThen | pv2/srpmproc/editor.py:707-712 | after a refused run the next run is never checked |
| Editor.AllAccepted | pv2/srpmproc/editor.py:710-712 | with no refusal, every action built is valid |
| Editor.EntryActionsSplit | pv2/srpmproc/editor.py:707-712 | the actions of the "patch" list split at any item into the actions before and from it |
| Editor.PatchListActionsSplit | pv2/srpmproc/editor.py:707-712 | the same split for the whole list |
| Editor.StepRefused | pv2/srpmproc/editor.py:707-712 | a refused run after an accepted one yields that run's error and keeps the accepted actions before it |
| Editor.StepAccepted | pv2/srpmproc/editor.py:707-712 | an accepted run after an accepted one keeps both |
| Editor.PrefixStep | pv2/srpmproc/editor.py:710-712 | checking one more element after an accepted prefix extends the prefix or stops with that element's error |
| Editor.AddListActions | pv2/srpmproc/editor.py:710-712 | the innermost loop appends one validated action per parameter map to the queue, stopping at the first refusal |
| Editor.EntryRefused | pv2/srpmproc/editor.py:708-712 | a refused entry after accepted entries ends the item's run with that entry's error |
| Editor.EntryAccepted | pv2/srpmproc/editor.py:708-712 | an accepted entry after accepted entries extends the queue by its actions |
| Editor.EntryAction | pv2/srpmproc/editor.py:709 | on an accepted configuration the entry's name is known, and its actions are those of its list |
| Editor.EntryActionsStep | pv2/srpmproc/editor.py:708-712 | the actions of one more entry follow those of the entries before it |
| Editor.PatchListActionsStep | pv2/srpmproc/editor.py:707-712 | the actions of one more item follow those of the items before it |
| Editor.ItemRefused | pv2/srpmproc/editor.py:707-712 | a refused item after accepted items ends loading with its error |
| Editor.ItemAccepted | pv2/srpmproc/editor.py:707-712 | an accepted item after accepted items extends the queue by its actions |
| Editor.AddEntryActions | pv2/srpmproc/editor.py:708-712 | the middle loop appends the actions of the item's entries in order, or stops at the first refusal |
| Editor.AddPatchListActions | pv2/srpmproc/editor.py:707-712 | the outer loop appends the actions of every item in order, or stops at the first refusal |
| Editor.ConfigItems | pv2/srpmproc/editor.py:707 | the "patch" list of an accepted configuration |
| Editor.LoadConfig | pv2/srpmproc/editor.py:670-712 | a configuration loads exactly when it is given as a path, passes `__validate_config` and every action map validates; the actions are then those of the "patch" list in order |
| Editor.Config.constructor | pv2/srpmproc/editor.py:670-685 | a new `Config` holds the loaded document and a queue of the given actions |
| Editor.Config.Run | pv2/srpmproc/editor.py:748-753 | `run` is the queue's `execute_all` |
| Editor.NewConfig | pv2/srpmproc/editor.py:670-712 | construction fails exactly when `LoadConfig` fails, with its error; otherwise the queue holds exactly `LoadConfig`'s actions and nothing has run |
| Processor.ScanFromStep | pv2/srpmproc/editor.py:233-252 | one turn of the walk that does not run out of fuel: the walk continues from the turn's state at the next index |
| Processor.ScanFromKeepingLength | pv2/srpmproc/editor.py:233-252 | a turn that does not lengthen the list costs no fuel |
| Processor.ScanFromLengthening | pv2/srpmproc/editor.py:233-252 | a lengthening turn costs one unit of fuel |
| Processor.ScanFromOutOfFuel | pv2/srpmproc/editor.py:233-252 | a lengthening turn with no fuel left ends the walk unfinished |
| Processor.ProcessSingleLine | pv2/srpmproc/editor.py:122-145 | in place: a line containing `find`, within `count`, gets its first occurrence replaced by the joined replacement lines and the counter rises; with no replacement, a line whose stripped text equals `find` is popped |
| Processor.ProcessSingleLineRegex | pv2/srpmproc/editor.py:148-163 | in place: when the pattern matches, the line becomes the substitution's result and a change is recorded, even if the line is unchanged; the counter is untouched |
| Processor.ProcessMultiLine | pv2/srpmproc/editor.py:166-196 | in place: a block of left-strip-equal lines at `i`, within `count`, is deleted or replaced by the replacement lines re-indented with line `i`'s indent, and the counter rises |
| Processor.DataProcessor | pv2/srpmproc/editor.py:213-255 | reads the lines, walks them in place and finalizes: the new content when something changed, NotAppliedError with the file untouched when nothing did |
| Processor.SinglePass | pv2/srpmproc/editor.py:122-145 | a reference definition of the single-line walk, stated line by line on the original lines |
| Processor.SingleLineTurnKeepsLength | pv2/srpmproc/editor.py:122-145 | a single-line turn never lengthens the list |
| Processor.HeadIsTurn | pv2/srpmproc/editor.py:122-145 | the walk's turn at the next unvisited line is what the reference pass says about that line |
| Processor.KeptTurn | pv2/srpmproc/editor.py:122-145 | a line the pass keeps stays at its index and the walk moves on |
| Processor.PoppedTurn | pv2/srpmproc/editor.py:133-138 | a popped line is removed, the next line slides into its slot and the index still advances past it |
| Processor.ReplacedTurn | pv2/srpmproc/editor.py:139-143 | a replaced line is overwritten in place and the counter rises |
| Processor.ScanSingleTurn | pv2/srpmproc/editor.py:233-252 | one turn of the single-line walk agrees with the reference pass's head |
| Processor.ScanIsSinglePass | pv2/srpmproc/editor.py:233-252 | from any index, the single-line walk yields the final part so far followed by the reference pass over the lines not yet reached |
| Processor.ScanPassTurn | pv2/srpmproc/editor.py:233-252 | the reference pass takes over from the walk after one turn |
| Processor.CountBefore | pv2/srpmproc/editor.py:126-130 | the number of lines before index `k` that pass the test |
| Processor.CountedMap | pv2/srpmproc/editor.py:122-145 | a walk that edits each passing line while `count` allows one more edit; the lines keep their number |
| Processor.CountedMapAt | pv2/srpmproc/editor.py:126-143 | line `k` is edited exactly when it passes the test and `count` allows an edit after the passing lines before it |
| Processor.ReplaceModeIsCountedMap | pv2/srpmproc/editor.py:122-145 | with replacement lines, the single-line walk is the counted walk over the lines that are not skipped and contain `find` |
| Processor.ReplaceModeHead | pv2/srpmproc/editor.py:122-145 | the first line of a replace-mode walk settles on its own and the rest is a walk from the next counter |
| Processor.ReplaceModeWalk | pv2/srpmproc/editor.py:213-255 | in replace mode the walk ends, keeps the list's length, and edits line `k` exactly when `find` occurs in it, it is not skipped and `count` allows |
| Processor.ReplaceModeAt | pv2/srpmproc/editor.py:126-143 | line `k` of a replace-mode walk is the line or its first-occurrence replacement, as `CountedMapAt` decides |
| Processor.CountedMapFromStart | pv2/srpmproc/editor.py:126-143 | `CountedMapAt` for a walk whose counter starts at 0 |
| Processor.WalkIsSinglePass | pv2/srpmproc/editor.py:213-255 | the whole walk in single-line exact mode is the reference pass |
| Processor.ReplaceModeLineIs | pv2/srpmproc/editor.py:139-143 | only the first occurrence of `find` is replaced, and only when the line is eligible and `count` allows |
| Processor.SkippedLinesSurviveReplaceMode | pv2/srpmproc/editor.py:109-119 | a skipped line (`%changelog`, or a comment when the find text is not one) survives a replace-mode walk unchanged |
| Processor.DeletionPassesOverNextLine | pv2/srpmproc/editor.py:133-138 | after a deletion, the line pulled into the examined slot is kept as it is |
| Processor.UnchangedTurnKeepsLines | pv2/srpmproc/editor.py:233-252 | a turn that reports no change leaves the list and the counter as they were |
| Processor.ChangesStick | pv2/srpmproc/editor.py:233-252 | once a change is recorded, a walk that ends reports it |
| Processor.NoChangeLeavesLines | pv2/srpmproc/editor.py:199-212 | a walk that ends with no change returns the lines it was given, so the file is not rewritten |
| Processor.BlockPastEndNeverMatches | pv2/srpmproc/editor.py:170-176 | a block window running past the end of the list never matches |
| Processor.TurnLengthBound | pv2/srpmproc/editor.py:166-196 | no turn lengthens the list except a block turn whose replacement is longer than its block |
| Processor.WalkEndsWithoutGrowth | pv2/srpmproc/editor.py:213-255 | when the replacement is no longer than the block, the walk always ends, whatever the fuel, and never lengthens the list |
| Processor.LStripPastIndent | pv2/srpmproc/editor.py:182-185 | prefixing a line with whitespace does not change its left-stripped text |
| Processor.IndentIsSpace | pv2/srpmproc/editor.py:182-184 | the indent taken from line `i` is whitespace only |
| Processor.BlockReplacementShape | pv2/srpmproc/editor.py:176-190 | a matched block in replace mode becomes the replacement lines, each prefixed with the leading whitespace of the block's first line, with the lines around it kept and the counter raised by one |
| Processor.BlockDeletionShape | pv2/srpmproc/editor.py:176-181 | a matched block in delete mode lay inside the list and is removed whole; the lines before and after it are kept in order and the counter rises by one |
| Processor.BlockStepChangesIff | pv2/srpmproc/editor.py:170-196 | a block turn changes the list exactly when the block matches and `count` allows one more replacement |
| Processor.GrowingTurn | pv2/srpmproc/editor.py:176-196 | replacing "a","b" by "a","a","b" at the first "a" of "a"…"a","b" grows the list by one and moves the match one line on |
| Processor.EndlessGrowth | pv2/srpmproc/editor.py:213-255 | a walk in which every turn lengthens the list and leaves a list of the same family runs out of any fuel |
| Processor.BlockEditNeverEnds | pv2/srpmproc/editor.py:186-196 | with `count` -1, the edit above never ends on "a","b": the walk runs out of every fuel |
| Processor.GrowingEditRegrows | pv2/srpmproc/editor.py:186-196 | each turn of the growing edit leaves the next list of the family |
| Processor.ResumingTurnShrinks | pv2/srpmproc/editor.py:186-196 | when the walk resumes past each replacement, every turn leaves fewer lines to visit |
| Processor.ScanResuming | pv2/srpmproc/editor.py:213-255 | the walk as intended always ends, without fuel |
| Processor.GrowingFirstTurn | pv2/srpmproc/editor.py:186-196 | the first turn of the growing edit over "a","b" |
| Processor.GrowingEditEndsWhenResuming | pv2/srpmproc/editor.py:186-196 | the edit that never ends as written ends after one replacement with "a","a","b" once the walk resumes past it |
| Processor.ResumingAgreesInLineMode | pv2/srpmproc/editor.py:122-145 | in single-line mode the written walk ends, whatever its fuel, with the intended walk's result |
| Lines.LineList.Reverse | pv2/srpmproc/util.py:261 | `list.reverse()`: the contents become their reversal |
| Lines.LineList.Insert | pv2/srpmproc/util.py:272 | `list.insert(idx, x)`: `x` goes at the clamped position and every other line keeps its order |
| Lines.LineList.Pop | pv2/srpmproc/editor.py:135 | `list.pop(i)`: line `i` is removed, the others keep their order |
| Lines.LineList.SetAt | pv2/srpmproc/editor.py:140 | `list[i] = x`: only line `i` changes |
| Lines.LineList.AssignSlice | pv2/srpmproc/editor.py:185 | `list[i:j] = xs`: the slice is replaced by `xs` |
| Lines.LineList.DeleteSlice | pv2/srpmproc/editor.py:180 | `del list[i:j]`: the slice is removed |
| Lines.RevInsertAt | pv2/srpmproc/util.py:261-284 | inserting into a reversed list and reversing back inserts at the mirrored position |
| Lines.InsertPosition | pv2/srpmproc/util.py:272 | where `insert` puts its element: negative indices count from the end and both ends clamp |
| Lines.InsertAt | pv2/srpmproc/util.py:272 | the element lands at the position, the lines before it stay and the lines after it move up by one |
| Lines.LineList.constructor | pv2/srpmproc/util.py:250 | the list holds the given lines |
| SrpmUtil.PatchStem | pv2/srpmproc/util.py:222 | the name without its last extension and with its other dots removed |
| SrpmUtil.GeneratePatchLine | pv2/srpmproc/util.py:13-33 | the four apply-line forms for OBSOLETE, P_SPACE, P_NOSPACE and KERNEL, and RpmParseError for any other style |
| SrpmUtil.GetPatchTypeByLine | pv2/srpmproc/util.py:98-114 | the first of the four line forms, tried in order, or none |
| SrpmUtil.CheckObsoletePatchAgrees | pv2/util/rpmutil.py:588-593 | `check_obsolete_patch` holds exactly when some line is classified as an obsolete-style apply line |
| SrpmUtil.ClassifyGeneratedPatchLine | pv2/srpmproc/util.py:13-33 | every generated apply line is classified back as its own style when the number is a run of digits |
| SrpmUtil.FirstPatchLine | pv2/srpmproc/util.py:130-136 | the index of the first classifiable apply line, and none exactly when no line classifies |
| SrpmUtil.GetPatchType | pv2/srpmproc/util.py:115-136 | KERNEL for "kernel", then INC_FILE with a `.patches` file, then AUTOSETUP, then the style of the first apply line, else none |
| SrpmUtil.LastEndif | pv2/srpmproc/util.py:46-53 | the index of the last "%endif" among the first `n` lines |
| SrpmUtil.ConditionalMeansOpenEndif | pv2/srpmproc/util.py:46-53 | the conditional flag holds exactly when some "%endif" among the first `n` lines has no "%i" line after it |
| SrpmUtil.ConditionalStep | pv2/srpmproc/util.py:46-53 | how one more line sets or clears the flag and moves the last "%endif" |
| SrpmUtil.DigitsThenColon | pv2/srpmproc/util.py:55-58 | `([0-9]*):` at the start of the text: its digits, which are all digits and followed by ":" |
| SrpmUtil.DirectiveDigitsShape | pv2/srpmproc/util.py:55-58 | a matched directive line starts with the directive name, its digits and a colon |
| SrpmUtil.DirectiveLineRoundTrip | pv2/srpmproc/util.py:272 | the line `add_new_source` writes is read back as a directive of the same kind and number |
| SrpmUtil.FirstDirective | pv2/srpmproc/util.py:43-60 | the index of the first directive line of the kind, and none exactly when there is none |
| SrpmUtil.LastDirectiveAt | pv2/srpmproc/util.py:55-76 | when the first directive of the reversed list is line `i`, its number is the last number and the anchor is `i`, or the last "%endif" − 1 inside a conditional |
| SrpmUtil.LastDirectiveAbsent | pv2/srpmproc/util.py:66-76 | with no directive, the anchor falls back to the last "%endif" − 1; no number is found, so the numbering fails later |
| SrpmUtil.ScanToDirective | pv2/srpmproc/util.py:43-60 | the loop stops at the first directive of the kind, with no directive before it, and then holds the conditional flag and "%endif" index of the lines up to it |
| SrpmUtil.EndifStep | pv2/srpmproc/util.py:49-53 | one line's update of the conditional flag and "%endif" anchor keeps both equal to their closed forms over the lines seen so far |
| SrpmUtil.GetLastDirective | pv2/srpmproc/util.py:35-76 | `get_last_directive` is `LastDirectiveOf`: the number of the first directive of the reversed list, its anchor, and whether it is unnumbered |
| SrpmUtil.DirectiveIdsMembership | pv2/srpmproc/util.py:78-96 | a number is listed exactly when some line is that directive with that number |
| SrpmUtil.GetSourceIds | pv2/srpmproc/util.py:78-96 | the numbers of the Patch lines and of the Source lines, each in list order |
| SrpmUtil.GetNewNumber | pv2/srpmproc/util.py:176-200 | "" for unnumbered directives; last + 1 for -1; the request otherwise; RpmParseError when the request collides with the list the swapped unpacking picks |
| SrpmUtil.GetPatchIdxInsert | pv2/srpmproc/util.py:138-157 | the loop's index is the closed-form `PatchInsertIndex`: the first apply line, or the open "%endif" before it |
| SrpmUtil.PatchScanStep | pv2/srpmproc/util.py:146-155 | one line's update of the flag, the open "%endif" index and the first apply index keeps all three equal to their closed forms over the lines seen so far |
| SrpmUtil.PatchLineIsNotConditional | pv2/srpmproc/util.py:146-155 | a line that applies a patch opens or closes no conditional |
| SrpmUtil.FirstSetupLine | pv2/srpmproc/util.py:159-167 | the index of the first "%setup" line, and none exactly when there is none |
| SrpmUtil.GetSetupLine | pv2/srpmproc/util.py:159-167 | the loop returns `FirstSetupLine` |
| SrpmUtil.AddPatchLine | pv2/srpmproc/util.py:202-247 | in place: nothing for INC_FILE or AUTOSETUP; otherwise the generated line at the insert index, or the P_SPACE line at the "%setup" line, or RpmParseError |
| SrpmUtil.AddNewSource | pv2/srpmproc/util.py:250-284 | in place: reverses, numbers, inserts the directive and the apply line, reverses back; on failure the list is left reversed as Python leaves it |
| SrpmUtil.AnchorInRange | pv2/srpmproc/util.py:264-272 | the anchor of a successful scan lies in the list or just before it |
| SrpmUtil.ApplyLines | pv2/srpmproc/util.py:218-240 | the apply lines a patch may get: the P_SPACE form, and the package's own form for a line style; at most two |
| SrpmUtil.InsertDirectivePreservesLines | pv2/srpmproc/util.py:264-282 | on the reversed list, the directive line is inserted once and, for a patch, at most one line from `ApplyLines` |
| SrpmUtil.AddNewSourcePreservesLines | pv2/srpmproc/util.py:250-284 | on success a number was assigned, every original line stays in order, and exactly one directive line with that number is added, plus for a patch at most one apply line from `ApplyLines` |
| SrpmUtil.PatchLineInsertedOnce | pv2/srpmproc/util.py:202-247 | `add_patch_line` leaves the list alone or inserts exactly one line, and that line is in `ApplyLines` |
| SrpmUtil.FirstPatchLineOfReversed | pv2/srpmproc/util.py:145-155 | the reversed scan's first apply line is the file's last one |
| SrpmUtil.UnconditionalOfReversed | pv2/srpmproc/util.py:145-156 | a line outside every conditional in file order leaves the reversed scan's flag clear |
| SrpmUtil.ClosingEndifOfReversed | pv2/srpmproc/util.py:145-156 | the "%endif" closing a conditional in file order is the index the reversed scan returns |
| SrpmUtil.FirstSetupLineOfReversed | pv2/srpmproc/util.py:159-167 | with no "%setup" after line `s`, the reversed scan meets line `s` first |
| SrpmUtil.InsertReversed | pv2/srpmproc/util.py:261-284 | an insertion at a reversed index, read back in file order |
| SrpmUtil.PatchLineSkipped | pv2/srpmproc/util.py:206-244 | INC_FILE and AUTOSETUP packages get no apply line |
| SrpmUtil.AddPatchLineAt | pv2/srpmproc/util.py:217-226 | where the insert index is known, a line-style package gets its generated line there |
| SrpmUtil.PatchInsertIndexFrom | pv2/srpmproc/util.py:142-157 | the insert index once the scan's bound and flag are known |
| SrpmUtil.AddPatchLineAtEndif | pv2/srpmproc/util.py:142-157 | inside a conditional the apply line goes in at the last "%endif" before the bound |
| SrpmUtil.PatchLineAfterLastApply | pv2/srpmproc/util.py:202-247 | outside any conditional, the package's own apply line goes directly after the file's last apply line |
| SrpmUtil.PatchLineAfterClosingEndif | pv2/srpmproc/util.py:202-247 | when the last apply line sits in a conditional, the apply line goes directly after the "%endif" that closes it |
| SrpmUtil.PatchLineAfterFirstEndif | pv2/srpmproc/util.py:142-157 | with no apply line, when the file's first "%endif" has no "%if" before it, the apply line goes directly after that "%endif" (a case only a "kernel" package reaches) |
| SrpmUtil.PatchLineAfterLastSetup | pv2/srpmproc/util.py:227-240 | with no apply line and no open conditional, the "%patch -P N -p1" line goes directly after the last "%setup" |
| SrpmUtil.PatchLineNowhere | pv2/srpmproc/util.py:241-242 | with no apply line, no open conditional and no "%setup", RpmParseError |
| SrpmUtil.SourceLineAfterAnchor | pv2/srpmproc/util.py:272 | the new directive line sits just after the line the anchor designates, in file order |
| SrpmUtil.AddNewSourceSucceeded | pv2/srpmproc/util.py:261-284 | a successful call found its anchor and number and inserted at the anchor |
| SrpmUtil.AssignedNumberOnSuccess | pv2/srpmproc/util.py:264-272 | on success the directive's number is the one the numbering step chose |
| SrpmUtil.SourceDirectiveFollowsLastSource | pv2/srpmproc/util.py:250-284 | when the last Source line is outside every conditional, the new Source line goes directly after it, with the assigned number |
| SrpmUtil.FirstOfReversedIsLastOfFile | pv2/srpmproc/util.py:261-264 | the first directive of the reversed list is the file's last one |
| SrpmUtil.AutoNumberFollowsLastDirective | pv2/srpmproc/util.py:183-186 | the automatic number is the last-in-file directive's number plus one, not the maximum |
| SrpmUtil.AutoNumberFollowsFirstDirective | pv2/srpmproc/util.py:183-186 | the same on the reversed list: the first directive found, plus one |
| SrpmUtil.NextNumberIsNotTheMaximum | pv2/srpmproc/util.py:183-186 | numbers 0, 5, 2 give "Source3" although Source5 exists |
| SrpmUtil.SourceCollisionChecksPatchNumbers | pv2/srpmproc/util.py:180-194 | as written, a Source number already used by a Source line is accepted; only Patch numbers collide |
| SrpmUtil.UnnumberedDirectiveStaysUnnumbered | pv2/srpmproc/util.py:183-184 | unnumbered directives give an unnumbered new one, "Source: name" |
| SrpmUtil.PatchWithoutPatchDirectivesFails | pv2/srpmproc/util.py:186 | with no Patch directive, adding a patch fails: `last_number + 1` is computed on None |
| RpmUtil.IsRpm | pv2/util/rpmutil.py:266-276 | the case-insensitive ".rpm" suffix test, and with `magic` also the file's first four bytes |
| RpmUtil.IsDebugPackage | pv2/util/rpmutil.py:70-87 | holds exactly for a ".rpm" name, not ".src.rpm" (any case), containing "-debuginfo" or "-debugsource" |
| RpmUtil.DebugPackageIsBinaryRpm | util/rpmutil.py:41-58 | a source package is never a debug package, and every debug package is an RPM by name |
| RpmUtil.PaddedHeaderSizeAligned | pv2/util/rpmutil.py:345-349 | the padded size is the smallest multiple of 8 not below the raw size |
| RpmUtil.GetRpmHdrSize | pv2/util/rpmutil.py:323-352 | fails with GenericError exactly when the four bytes at `offset` are not the header magic; otherwise 8 + 16·il + dl (padded to 8 when asked) + 8, with il and dl the big-endian values read at offset+8 |
| RpmUtil.HeaderFieldsAre32Bit | util/rpmutil.py:280-309 | with a full header present, il and dl are below 2^32 |
| RpmUtil.SplitRpmByHeader | util/rpmutil.py:311-334 | name, version, release, epoch and arch, a falsy epoch becoming "" |
| RpmUtil.SpecEvr | pv2/util/rpmutil.py:481-496 | for Epoch, Version and Release, the last word of the first line with that prefix, or None |
| Generic.ConvMultibyte | pv2/util/generic.py:42-50 | the loop computes the big-endian base-256 value of the bytes |
| Generic.BigEndianBound | util/generic.py:29-37 | four bytes read big-endian are below 2^32 |
| Generic.HashChecker | pv2/util/generic.py:102-117 | lengths 128, 64, 40 and 32 give sha512, sha256, sha1 and md5; any other length raises GenericError |
| Generic.GenBoolOption | pv2/util/generic.py:74-80 | "1" exactly for a truthy value that is not the string "0" |
| Generic.GenBoolOptionByKind | util/generic.py:61-67 | by kind: a bool gives its value, an int "1" unless 0, a string "1" unless empty or "0", a container "1" unless empty, None "0" |
| Generic.TrimNonEmptyString | pv2/util/generic.py:66-72 | rejects a non-string or blank value with ProvidedValueError, and returns the value itself, untrimmed |
| Generic.GeneratePasswordHash | util/generic.py:69-78 | refuses the hash types "sha", "sha1" and "md5" before hashing |
| Generic.ReadFileToList | pv2/util/generic.py:181-192 | the lines of the content without line breaks, or FileNotFound exactly when there are none |
| Generic.WriteFileFromList | pv2/util/generic.py:194-199 | each element followed by "\n" |
| Generic.TranslateNewlines | pv2/util/generic.py:181-192 | text-mode reading leaves text without "\r" unchanged |
| Generic.WrittenHasNoCarriageReturn | pv2/util/generic.py:194-199 | writing elements without line breaks produces no "\r", so reading it back translates nothing |
| Generic.ReadLinesOfWritten | pv2/util/generic.py:181-199 | reading what was written gives the elements back, one per line |
| Generic.ReadLinesOfLine | pv2/util/generic.py:181-192 | a newline-free line followed by "\n" reads back as that line, then the rest |
| Generic.WriteThenReadRoundTrip | pv2/util/generic.py:181-199 | reading back a written non-empty list of lines without line breaks returns the same list |
| Decorators.CleanEntries | pv2/util/decorators.py:14-17 | the same keys in the same order; None and "" become the default for the key, or the fallback; other values are kept |
| Decorators.CleanReturned | pv2/util/decorators.py:7-20 | a dict result is cleaned, anything else passes through unchanged |
| Decorators.CleanIdempotent | pv2/util/decorators.py:14-17 | cleaning an already cleaned result changes nothing |
| Decorators.BlankBecomesFallback | pv2/util/decorators.py:7 | with no defaults every blank value becomes the fallback, "0" unless another is given |
| Decorators.CleanKeepsFilledDict | pv2/util/decorators.py:14-17 | a dict without blank values comes back unchanged |
| Errors.Parent | pv2/util/error.py:46-249 | every exception class has its direct base class, ending at the built-in exceptions |
| Errors.NotApplied | pv2/util/error.py:210-219 | a NotAppliedError whose message is "<action> failed: <reason>" |
| Errors.ConfigError | pv2/util/error.py:221-249 | the three configuration errors with message "<action>: <reason>" |
| Errors.MissingReason | pv2/util/error.py:226-229 | a one-argument call of those constructors raises TypeError instead |
| Errors.IndexZero | pv2/util/error.py:56 | `x[0]`: the first item of a list, tuple or string, a dict's entry under a key equal to 0, or a failure |
| Errors.GenericErrorStr | pv2/util/error.py:52-63 | `__str__`: args[0]['args'][0] when that lookup works, else args[0], else the repr of the instance dict |
| Errors.GenericErrorStrOfMessage | pv2/util/error.py:52-63 | an exception raised with a message string shows that message |
| Errors.GenericErrorStrOfFault | pv2/util/error.py:52-63 | an exception raised with `{'args': [message, ...]}` shows the message |
| Errors.GenericErrorStrOfNothing | pv2/util/error.py:52-63 | an exception raised with no argument and no attribute shows "{}" |
| Errors.FaultCodesDistinct | pv2/util/error.py:46-208 | every defined fault code belongs to one class only |
| Errors.MockCodesInMockBand | pv2/util/error.py:100-140 | the Mock classes use the 9100–9199 band and no other class does |
| Errors.AncestorIsShallower | pv2/util/error.py:46-249 | an ancestor sits no deeper in the hierarchy than its descendant |
| Errors.ConfigValueErrorIsValueError | pv2/util/error.py:221-229 | PatchConfigValueError derives from ValueError, not from GenericError |
| Errors.ConfigTypeErrorsAreTypeErrors | pv2/util/error.py:231-249 | PatchConfigTypeError and TooManyFilesError derive from TypeError, not from GenericError |
| Patching.FindSingleYaml | pv2/srpmproc/rpm.py:144-158 | the single match, None for no match, an error for several |
| Patching.ApplyConfigs | pv2/srpmproc/rpm.py:216-219 | configurations run in order until one raises: those completed and the error |
| Patching.ApplyConfigsStep | pv2/srpmproc/rpm.py:216-219 | one more configuration after a clean run |
| Patching.ApplyList | pv2/srpmproc/rpm.py:216-219 | the apply loop is `ApplyConfigs` |
| Patching.PerformPatch | pv2/srpmproc/rpm.py:170-232 | the step-by-step flags and list give `PerformPatchSpec` |
| Patching.CollectConfigs | pv2/srpmproc/rpm.py:185-212 | the list holds main.yml then the branch file, each only when found, and nothing unless patching on main; the flag records whether the branch file was found; a failed search is an error |
| Patching.PatchedIffApplied | pv2/srpmproc/rpm.py:187-232 | the result is true exactly when at least one configuration ran |
| Patching.AppliedComeFromSearches | pv2/srpmproc/rpm.py:190-230 | every configuration applied is one the searches returned |
| Patching.MainThenBranch | pv2/srpmproc/rpm.py:190-219 | with main.yml and <dest_branch>.yml present and clean, they run in that order and <package>.yml is never consulted |
| Patching.PackageFileRule | pv2/srpmproc/rpm.py:221-230 | <package>.yml is applied only when the destination ref exists and no <dest_branch>.yml was found, and then last |
| Patching.NoMainBranch | pv2/srpmproc/rpm.py:190-230 | without the main ref, only <package>.yml can be applied |
| Patching.BranchName | pv2/srpmproc/rpm.py:93-96 | an unset (falsy) branch becomes prefix + release + suffix; a set one is kept |
| Patching.DefaultBranches | pv2/srpmproc/rpm.py:44-47 | with the default prefixes and no branches given, the importer reads "c<release>" and writes "r<release>", two distinct branches |
| Patching.ImportOutcome | pv2/srpmproc/rpm.py:283-301 | a listed error sets its own fault code, anything else fault 2; cleanup always runs; the process exits only for a positive fault |
| Patching.DuplicateYamlIsUnexpected | pv2/srpmproc/rpm.py:144-158 | several matching configuration files end the import with fault 2 |
| Operation.TaggedMatchShape | pv2/importer/operation.py:249 | a tagged match is exactly a line "<hashtype> (<file>) = <checksum>" with those parts |
| Operation.TaggedLineMatches | pv2/importer/operation.py:249 | every such line with space-free parts and no ")" in the file name matches with those parts |
| Operation.ClassicFrom | pv2/importer/operation.py:250 | the lazy checksum group: the shortest length that lets the classic pattern match |
| Operation.ParseMetadataFile | pv2/importer/operation.py:243-270 | the loop fills the dictionary as `ParseLines` says: blank lines skipped, tagged lines first, then classic lines with the hash type from the length |
| Operation.ParseSnoc | pv2/importer/operation.py:252-268 | parsing one more line applies that line to the dictionary so far |
| Operation.LastLineWins | pv2/importer/operation.py:259-268 | the last line naming a file decides its entry, and a blank last line changes nothing |
| Operation.GenerateMetadata | pv2/importer/operation.py:110-118 | the loop writes one "<sha>  <name>\n" line per item, in order |
| Operation.ParseMetadataLine | pv2/importer/operation.py:249-268 | a written metadata line parses back to its item |
| Operation.ClassicLine | pv2/importer/operation.py:249-268 | "<sha>  <name>" with space-free parts is not tagged and splits back into its parts |
| Operation.GenerateThenParse | pv2/importer/operation.py:110-118 | parsing the text `generate_metadata` writes gives every name back with its digest and hash type |
| Operation.UnknownDigestLengthFails | pv2/importer/operation.py:264-268 | a classic line whose checksum has none of the known lengths makes parsing fail |
| Operation.FilesumText | pv2/importer/operation.py:121-128 | the hash and one newline |
| Operation.FilesumRoundTrip | pv2/importer/operation.py:121-128 | stripping the written text returns the hash |
| Operation.LookasideTemplatePath | pv2/importer/operation.py:226-240 | exactly rocky8, rocky, centos, stream and fedora have templates; anything else gives None |
| Operation.ModuleStreamOs | pv2/importer/operation.py:294-311 | the release alone for a branch without "rhel"; otherwise release, padded minor, padded micro and timestamp |
| Operation.RhelVersionAtStart | pv2/importer/operation.py:301-304 | the version pattern matches "rhel-<major>.<minor>.<micro>" with those groups |
| Operation.StreamOsOfRhelBranch | pv2/importer/operation.py:294-311 | for "rhel-<major>.<minor>.<micro>", release + two-digit minor + two-digit micro + timestamp; the major is ignored |
| Operation.Pad2 | pv2/importer/operation.py:305-309 | a one-digit group gets a leading zero, others are kept |
| MockConfigUtils.ConfigString | pv2/mock/config.py:39-64 | None, bool, int and tuple through `str()`, str and list through JSON, any other value ProvidedValueError |
| MockConfigUtils.ConfigStringOfBool | pv2/mock/config.py:39-55 | a boolean is written `True` or `False` |
| MockConfigUtils.ConfigStringUsesJson | pv2/mock/config.py:57-61 | exactly strings and lists go to the JSON encoder |
| MockConfigUtils.GenConfigString | pv2/mock/config.py:67-74 | exactly the enable line `config_opts["plugin_conf"]["<name>_enable"] = <status>` |
| MockConfigUtils.EnableLineOfBool | pv2/mock/config.py:67-74 | for a boolean status the enable line ends `= True` or `= False` |
| MockConfigUtils.EnableLineIsOneLine | pv2/mock/config.py:67-74 | the enable line ends with its only line break |
| MockConfigUtils.Unpack | pv2/mock/config.py:93 | `key, option = k` on a string succeeds exactly for two characters |
| MockConfigUtils.OptLinesSucceedIff | pv2/mock/config.py:93-97 | the option lines are produced exactly when every option name has two characters |
| MockConfigUtils.GenConfigStringWithOpts | pv2/mock/config.py:77-99 | the enable line alone when disabled; otherwise also the empty option dictionary and one line per sorted option name |
| MockConfigUtils.DisabledPluginIsOneLine | pv2/mock/config.py:84-86 | a disabled plugin gets only its enable line |
| MockConfigUtils.EnabledPluginWithoutOpts | pv2/mock/config.py:84-99 | an enabled plugin without options gets its enable line and an empty option dictionary |
| MockConfigUtils.EnabledPluginOptsNeedTwoCharNames | pv2/mock/config.py:93-97 | the loop iterates option names, so an enabled plugin with options succeeds only for two-character names |
| MockConfigUtils.ItemLinesSucceedIff | pv2/mock/config.py:112-115 | the dictionary lines are produced exactly when every key and value can be rendered |
| MockConfigUtils.SortedItemsOfStrings | pv2/mock/config.py:112 | for string keys, `sorted(d.items())` holds the same entries with keys ascending |
| MockConfigUtils.SortedItemsOfNumbers | pv2/mock/config.py:112 | for int and bool keys, a permutation of the entries with keys in ascending numeric order |
| MockConfigUtils.SortedItemsFailsIff | pv2/mock/config.py:112 | sorting two or more entries raises TypeError exactly when the keys are neither all strings nor all numbers |
| MockConfigUtils.EntriesHas | pv2/mock/config.py:112 | an entry is listed exactly when its key is a string and the item is present |
| MockConfigUtils.ItemLinesLoop | pv2/mock/config.py:112-115 | the loop accumulates one line per item |
| MockConfigUtils.GenConfigOption | pv2/mock/config.py:102-128 | a dictionary becomes one sorted entry per line, `append` a `.append(...)` line, anything else one assignment |
| MockConfigUtils.SingleEntryOption | pv2/mock/config.py:111-115 | a one-entry dictionary gives exactly one line |
| MockConfigUtils.SortedIsFixed | pv2/mock/config.py:112 | sorting items already sorted by distinct keys changes nothing |
| MockConfigUtils.AppendOptionLine | pv2/mock/config.py:119-121 | with `append` the option gets a single `.append(...)` line |
| MockConfigUtils.BindMountDisabledIsQuoted | pv2/mock/config.py:713-729 | as written, a disabled bind mount plugin is written with the quoted string "False" where every other plugin gets `False` |
| MockConfigUtils.GenBindMountConfig | pv2/mock/config.py:713-729 | the loop builds `BindMountAsWritten`: the status rendered twice, then one line per mount while enabled |
| MockConfigUtils.AppendMountLines | pv2/mock/config.py:726-729 | appending one line per mount, in order, gives the prefix followed by `MountLines` of the mounts |
| MockConfigUtils.BindMountAsWrittenShape | pv2/mock/config.py:713-729 | for a boolean status, one enable line holding the JSON of "True" or "False", then the mounts only when enabled |
| MockConfigUtils.BindMountStatusIsBool | pv2/mock/config.py:713-729 | the corrected rendering gives the ordinary enable line and no mounts when disabled |
| MockConfigUtils.ChrootScanOptsSorted | pv2/mock/config.py:751-769 | the chroot scan dictionary holds exactly the given options, keys ascending |
| MockConfigUtils.ShowrcMatchesEnableLine | pv2/mock/config.py:786-794 | for a bool, int or None status the showrc line is the ordinary enable line |
| MockConfigUtils.PluginStartsWithEnableLine | pv2/mock/config.py:681-692 | every plugin's text starts with its enable line; only the bind mount one writes a JSON string as the status |
| MockConfigUtils.NewChrootFile | pv2/mock/config.py:801-814 | falsy content is refused with MissingValueError |
| MockConfigUtils.ChrootFileContentRecoverable | pv2/mock/config.py:816-820 | the text of a chroot file gives its content back |
| MockConfigUtils.MacroConfigShape | pv2/mock/config.py:839-843 | the macro line ends with the quoted value and is one line for a value without line breaks |
| MockConfigUtils.NewMacroFile | pv2/mock/config.py:849-862 | falsy content is refused with MissingValueError |
| MockConfigUtils.MacroFileContentRecoverable | pv2/mock/config.py:864-868 | the text of a macro file gives its content back |
| Sorting.SortByKey | pv2/mock/config.py:112 | the items with string keys in ascending order, a permutation of the input |
| Sorting.SortByNumber | pv2/mock/config.py:112 | the items with numeric keys in ascending order, with the same length and the same elements |
| Sorting.SortByNumberIsPermutation | pv2/mock/config.py:112 | sorting by number keeps every entry with its multiplicity |
| Sorting.SortIsPermutation | pv2/mock/config.py:765 | sorting keeps every item with its multiplicity |
| MockConfig.RegisterAddsOne | pv2/mock/config.py:461-467 | registration fails exactly for a name already taken; otherwise it adds that one entry and changes no other |
| MockConfig.CheckRequiredAcceptsIff | pv2/mock/config.py:364-394 | accepts exactly a dist starting "." and an alphanumeric, a releasever starting with a digit, and a root |
| MockConfig.CheckRequiredKinds | pv2/mock/config.py:364-394 | an absent value is MissingValueError, a malformed one ProvidedValueError |
| MockConfig.StripDotsEnds | pv2/mock/config.py:416 | the stored dist has no "." at either end |
| MockConfig.StripDotsOfWellFormed | pv2/mock/config.py:416 | a well-formed dist not ending in "." is stored without its leading dot |
| MockConfig.DropBootstrap | pv2/mock/config.py:532-554 | every "~bootstrap" is removed, left to right |
| MockConfig.DropBootstrapSuffix | pv2/mock/config.py:532-554 | a text without "~" loses nothing, and a trailing "~bootstrap" is all that is removed after it |
| MockConfig.DistMacroIgnoresBootstrap | pv2/mock/config.py:532-554 | appending "~bootstrap" to a dist without "~" does not change the dist macro |
| MockConfig.LegalHostArchesCovers | pv2/mock/config.py:556-584 | each of the eleven known targets gets a non-empty tuple naming itself; others get the error back |
| MockConfig.LegalHostArchesFamilies | pv2/mock/config.py:556-584 | 32-bit x86 targets may build on x86_64, and noarch on every host except armv7hl and riscv64 |
| MockConfig.MacroNameIdempotent | pv2/mock/config.py:476-480 | adding the "%" prefix twice is adding it once |
| MockConfig.MacroDataEmptyIff | pv2/mock/config.py:476-489 | the content is empty exactly when every value is falsy |
| MockConfig.MacroDataLoop | pv2/mock/config.py:476-484 | the loop collects one line per truthy macro |
| MockConfig.UpdateKeepsUnnamed | pv2/mock/config.py:426 | a key no keyword argument names keeps its constructed value |
| MockConfig.InitialOptsDist | pv2/mock/config.py:411-426 | unless overridden, the stored dist is the given one with its dots stripped |
| MockConfig.StarterMacrosNotEmpty | pv2/mock/config.py:440-444 | the starter macro file is never empty, so the first `add_macros` cannot raise |
| MockConfig.DisabledPluginsLocked | pv2/mock/config.py:452-457 | yum_cache, root_cache and ccache cannot be added again |
| MockConfig.FilesFromSucceedsIff | pv2/mock/config.py:431-433 | adding a list of files succeeds exactly when the names are distinct and none is registered |
| MockConfig.ModuleAddOnList | pv2/mock/config.py:501-523 | a module is refused exactly when already listed; otherwise it is appended and nothing else changes |
| MockConfig.ModuleAddTwice | pv2/mock/config.py:501-523 | adding the same module twice fails the second time |
| MockConfig.NonNoneKeys | pv2/mock/config.py:255-295 | a key is stored exactly when some field of that name is not None, and no stored value is None |
| MockConfig.RepoNameOfNew | pv2/mock/config.py:310-317 | a repository reports the name it was built with, or none |
| MockConfig.NonNoneLast | pv2/mock/config.py:255-295 | the value stored for a key only one field names is that field's value |
| MockConfig.AddRepoIff | pv2/mock/config.py:223-233 | a repository is added exactly when it is a `DnfRepoConfig` with a new name; nothing else changes |
| MockConfig.DnfConfig.constructor | pv2/mock/config.py:185-221 | the given repository data and no repository |
| MockConfig.DnfConfig.AddRepoSlot | pv2/mock/config.py:223-233 | refuses a non-repository or a taken name, otherwise adds exactly that repository |
| MockConfig.NewDnfConfig | pv2/mock/config.py:185-221 | refuses an rpmverbosity outside the fixed set; otherwise keeps the non-None arguments and adds each repository |
| MockConfig.MockConfig.AddFile | pv2/mock/config.py:461-467 | a file whose name is taken is refused, otherwise exactly that file is registered |
| MockConfig.MockConfig.AddFiles | pv2/mock/config.py:431-433 | the files are added in turn, stopping at the first refused |
| MockConfig.MockConfig.AddPlugin | pv2/mock/config.py:493-499 | a plugin whose name is taken is refused, otherwise exactly that plugin is registered |
| MockConfig.MockConfig.AddMacros | pv2/mock/config.py:469-491 | the lines of the truthy macros replace the macro file's text; no line at all raises MissingValueError |
| MockConfig.MockConfig.ModuleInstall | pv2/mock/config.py:501-511 | the module is appended to `module_install` unless already listed |
| MockConfig.MockConfig.ModuleEnable | pv2/mock/config.py:513-523 | the module is appended to `module_enable` unless already listed |
| MockConfig.MockConfig.AddModule | pv2/mock/config.py:501-523 | the module is appended to the key's list unless already listed; a refusal changes nothing, and no other field changes |
| MockConfig.MockConfig.AddConfigOpt | pv2/mock/config.py:525-529 | the value is appended to the key's list, a new list for a new key |
| MockConfig.MockConfig.AddDisabledPlugins | pv2/mock/config.py:452-457 | the three disabled plugins are registered |
| MockConfig.MockConfig.SetDnfConfig | pv2/mock/config.py:586-593 | the DNF configuration is replaced |
| MockConfig.MockConfig.constructor | pv2/mock/config.py:411-430 | the option dictionary as given and empty registries |
| MockConfig.NewMockConfig | pv2/mock/config.py:323-459 | construction succeeds exactly when validation passes and the given files are distinct; the object then holds the initial options, the files, the macros and the three disabled plugins |
| MockConfig.BuildConfig | pv2/mock/config.py:427-459 | after validation the object is built exactly when the files are distinct and the user macros are absent or non-empty; it then holds the options, the files, the starter and user macros, the three disabled plugins and the dnf configuration |
| MockRunner.PathJoin | pv2/mock/runner.py:366-367 | the directory and the name joined with one "/" |
| MockRunner.NonEmpty | pv2/mock/runner.py:219 | exactly the non-empty arguments, in order |
| MockRunner.DefineArgsLoop | pv2/mock/runner.py:190-196 | the loop yields `DefineArgs` of the entries |
| MockRunner.BuildArgs | pv2/mock/runner.py:169-220 | the step-by-step list is `MockArgs`, or the first option's exception |
| MockRunner.FailureSticks | pv2/mock/runner.py:184-216 | once an option raises, later options change nothing |
| MockRunner.ArgsBegin | pv2/mock/runner.py:169-177 | the list begins mock, --root, <config>, --<call>, <arg>, then --resultdir <dir> exactly when one is given |
| MockRunner.KwargsSucceedIff | pv2/mock/runner.py:184-216 | assembly raises exactly when some option raises, with the first such exception |
| MockRunner.NoneSkipped | pv2/mock/runner.py:185-186 | a None option adds nothing wherever it stands |
| MockRunner.QuietIsBare | pv2/mock/runner.py:197-201 | `quiet` with any non-None value, False included, adds a bare --quiet |
| MockRunner.IsolationRestricted | pv2/mock/runner.py:202-207 | `isolation` is accepted exactly for "simple" and "nspawn", else ProvidedValueError naming the value |
| MockRunner.DefineArgsLength | pv2/mock/runner.py:191-196 | two arguments per definition |
| MockRunner.DefineArgsAt | pv2/mock/runner.py:191-196 | definition `j` gives arguments `2j` and `2j+1` |
| MockRunner.DefinitionsRendered | pv2/mock/runner.py:191-196 | every definition becomes --define, "'<macro> <value>'", in order |
| MockRunner.OtherOption | pv2/mock/runner.py:213-216 | another option adds --<option>, then its string form unless empty |
| MockRunner.NonEmptyDropsOne | pv2/mock/runner.py:219 | an empty argument between others is dropped |
| MockRunner.BuildsrpmCommand | pv2/mock/runner.py:69-96 | a source RPM build with only the required options runs mock with the spec, the sources and the noarch target |
| MockRunner.BuildsrpmOptions | pv2/mock/runner.py:69-96 | the optional definitions, quiet and isolation follow in that order |
| MockRunner.PlainOption | pv2/mock/runner.py:213-216 | a plain option with a non-empty string adds --<option> <value> |
| MockRunner.KwargSnoc | pv2/mock/runner.py:184-216 | one more option appends its arguments to the assembly so far |
| MockRunner.RunOutcomeCases | pv2/mock/runner.py:233-258 | exit 0 gives a result and any other exit raises, both with the given or determined result directory; bad options raise before mock runs |
| MockRunner.CleanIgnoresFirstFailure | pv2/mock/runner.py:55-68 | a failing first clean does not decide the outcome; the plain second clean does |
| MockRunner.LogPath | pv2/mock/runner.py:362-367 | the log is inside the result directory when one is known, else None |
| MockRunner.ExitKindFollowsTable | pv2/mock/runner.py:375-423 | a listed exit code gets its class, any other MockUnexpectedError |
| MockRunner.ExitKindIsMockError | pv2/mock/runner.py:375-423 | every class picked is a MockGenericError |
| MockRunner.SetuidExitMessage | pv2/mock/runner.py:375-423 | exit 2 replaces the message by the setuid one naming the result directory |
| MockRunner.UnlistedExitIsUnexpected | pv2/mock/runner.py:418-423 | an unlisted code is unexpected, with the "unexpected" message naming the command |
| MockRunner.ListedExitKeepsDefaultMessage | pv2/mock/runner.py:369-372 | listed codes other than 2 keep the default message naming command, code and result directory |
| MockRunner.Classify | pv2/mock/runner.py:375-423 | the branch chain returns `ExitError`: the table's class and its message |
| MockRunner.MockErrorResulter.constructor | pv2/mock/runner.py:349-423 | build and root log paths from the result directory, and the classified error |
| Modularity.TwoDigits | pv2/modularity/util.py:31-39 | a single digit gets a leading zero; the text is a run of digits of that value |
| Modularity.StreamPrefixValue | pv2/modularity/util.py:31-39 | with minor and patch below 100 the prefix is major·10000 + minor·100 + patch |
| Modularity.DotSplit | pv2/modularity/util.py:51-58 | a run of digits followed by "." splits in one way only |
| Modularity.DistPrefixInjective | pv2/modularity/util.py:51-58 | distinct versions give distinct "el<major>.<minor>.<patch>" prefixes |
| Modularity.DistMacroShape | pv2/modularity/util.py:61-91 | the macro starts ".module+" or ".scrmod+" and, for a 40-character digest, ends with eight of its characters |
| Modularity.GenXmdData | pv2/modularity/util.py:108-113 | a dictionary with the single key "peridot" holding the data |
| Modularity.FalsyEpochIsZero | pv2/modularity/util.py:194-199 | a missing, zero or empty epoch is written "0" |
| Modularity.ArtifactStartsWithName | pv2/modularity/util.py:194-199 | the artifact string is the name, "-", the epoch, ":" and the rest, so the name can be read back |

## Left out

- Processor.ProcessSingleLineRegex: the regex engine is a substitution parameter. The model does not capture how `count` picks one substitution or all, nor the `re.error` a bad pattern raises.
- Processor.DataProcessor: a `fuel` bound counts the block replacements that lengthen the list. `Unfinished` stands for the source's loop that never ends, and `WalkEndsWithoutGrowth` proves that fuel matters nowhere else.
- SrpmUtil.ConditionalStep: the word boundary `\b` after "%endif" (and after "%setup" in `SrpmUtil.FirstSetupLine`) is checked against ASCII word characters, while Python's are Unicode.
- SrpmUtil.CheckObsoletePatchAgrees: `\d` in `check_obsolete_patch` is an ASCII digit here, while Python's also matches other Unicode decimal digits.
- Editor.MissingKeys: the missing keys are listed in schema order. Python joins a `set`, whose order is unspecified, so only the set of names is faithful.
- PyValue.Repr: quotes and backslashes inside strings are not escaped. This affects `str()` of tuples and the chroot scan dictionary.
- Editor.ExecuteDeleteLine: any entry that is not a string raises TypeError here. In Python a list entry passes the `"\n" in line` test and fails later with a different error.
- Editor.LoadConfig: the `str`/`bytes`/`Path` type test is a boolean `pathLike` parameter.
- Modularity.GenStreamPrefix: takes natural numbers, while Python accepts any int, including negatives.
- MockConfigUtils.SortedItemsOfNumbers: float keys, mixed int and float keys, and tuple keys are not ordered. They fail here as if they were incomparable. The TypeError message is also generic.
- MockConfig.NewMockConfig: `package_manager` and `distsuffix` are unused by the source and not modelled. The order of `config_opts` is not modelled.
- Errors.IndexZero: dict key equality covers `0` and `False` only; `0.0` and other numeric keys equal to 0 are not modelled. `__str__` of user-defined objects is not modelled.
- Editor.SpecChangelogSpec: the changelog header and its insertion into an in-memory list are not modelled, because that list is never written back. Only the skip, the read and parse errors and the unchanged file are modelled. The `spec_parse` rpm bindings become a parameter; the clock and `textwrap` are left out.
- DeleteFile, ReplaceFile, ApplyScript, ApplyPatch and `find_file_name`: these act on the file system, a subprocess or git. The file an action edits is given as its content and name.
- `export_mock_config`, `mock_config_hash` and the `gen_config` of `DnfConfig`/`DnfRepoConfig`: file, hashlib and ConfigParser output. `determine_legal_host_arches` returning, rather than raising, its error is kept as a returned value.
- `gen_stream_version` and `gen_stream_dist_macro`'s sha1: the clock and hashlib. The digest is a parameter.
- YAML loading, git operations, uploads, hashing and JSON encoding: their results are parameters.
- `__determine_resultdir`, the mock subprocess and the `MockResult` listings: the exit code and the determined result directory are parameters.
- The older `util/` copies: only the functions named above are modelled.
- SrpmUtil.InsertDirectivePreservesLines: states its insertion on the reversed list. `AddNewSourcePreservesLines` carries it back to file order.
- Fault codes with no defined constant (missing in the constants module) are an opaque `missingCode` function in `Patching.ImportOutcome`.

## Findings

| source | as written | input that shows it | evidently intended | confidence | as-written member | corrected member |
|---|---|---|---|---|---|---|
| pv2/mock/config.py:713-729 | `gen_config` passes `config_string(self.enable)` to `gen_config_string`, which renders it again through JSON | `MockBindMountPluginConfig(enable=False)` writes `bind_mount_enable"] = "False"`, a non-empty string mock reads as true | the status rendered once, `= False`, like every other plugin | not executed | MockConfigUtils.BindMountDisabledIsQuoted | MockConfigUtils.BindMountStatusIsBool |
| pv2/srpmproc/editor.py:186-196 | `i += len(replace_lines) - 1` inside the block helper changes only its local `i`, so the walk in `data_processor` does not skip the replacement | find "a","b", replace "a","a","b", count -1, on lines "a","b": each replacement re-creates the block one line further on, and the loop never ends | the walk resumes after the replacement lines | not executed | Processor.BlockEditNeverEnds | Processor.GrowingEditEndsWhenResuming |
