/**
 * `Action.data_processor` of the patch editor and the helpers it calls: a
 * walk over a file's lines with an index `i`, a replacement counter and a
 * `changes` flag, editing the list in place as it goes.
 *
 * The walk need not end: in block mode with `count == -1`, a replacement
 * longer than the block it replaces can re-create a match one line further
 * on, for ever. The model therefore carries a `fuel` that only such a
 * lengthening replacement consumes; `Unfinished` is the outcome of a run
 * that would go on past it.
 */
module Processor {
  import opened Wrappers
  import opened Text
  import opened Errors
  import opened Lines
  import Generic
  import RpmUtil

  /**
   * The arguments of one `data_processor` call. `regexSub` stands for
   * `re.compile(find).sub(replacement, line, n)` with the pattern, the
   * replacement and `n` already fixed: `None` when the pattern does not
   * occur in the line.
   */
  datatype Params = Params(target: string, findLines: seq<string>, replaceLines: seq<string>,
                           count: int, regex: bool, regexSub: string -> Option<string>)

  /** What one helper call leaves: the list, its `changed` result and the counter. */
  datatype Step = Step(lines: seq<string>, changed: bool, counter: int)

  /** The end of a walk: the edited list and the `changes` flag, or a walk that had not ended when the fuel ran out. */
  datatype Scan = Scanned(lines: seq<string>, changes: bool) | OutOfFuel

  /** The outcome of an editing action on one file: the file's new content, the raised error, or a run that does not end. */
  datatype Edit = Edited(content: string) | Failed(error: Error) | Unfinished

  // ---------------------------------------------------------------------
  // The skip rule

  /**
   * `__skip_line`: in a spec file the "%changelog" line is never edited, and
   * a comment line is passed over unless the first find line is a comment
   * too. Other targets skip nothing.
   */
  predicate SkipLine(target: string, line: string, findLines: seq<string>)
    requires findLines != []
  {
    target == "specfile" &&
    (RpmUtil.SpecLineChangelog(line) || (Generic.LineIsComment(line) && !Generic.LineIsComment(findLines[0])))
  }

  // ---------------------------------------------------------------------
  // Single-line mode

  /** `count` allows one more replacement when the counter stands at `counter`. */
  predicate WithinCount(counter: int, count: int)
  {
    count == -1 || counter < count
  }

  /**
   * `__process_single_line` at index `i`: a line holding `find` loses its
   * first occurrence to the replacement lines joined with "\n"; with no
   * replacement lines, a line that is `find` once stripped is removed
   * instead, without counting.
   */
  function SingleLineStep(lines: seq<string>, i: nat, find: string, replaceLines: seq<string>,
                          counter: int, count: int): Step
    requires i < |lines|
  {
    var line := lines[i];
    if !Contains(line, find) || !WithinCount(counter, count) then Step(lines, false, counter)
    else if replaceLines == [] && Strip(line) == find then Step(lines[..i] + lines[i + 1..], true, counter)
    else Step(lines[i := ReplaceFirst(line, find, Join("\n", replaceLines))], true, counter + 1)
  }

  /** `__process_single_line_regex`: the substitution replaces the line; the counter is left alone. */
  function RegexStep(lines: seq<string>, i: nat, regexSub: string -> Option<string>, counter: int): Step
    requires i < |lines|
  {
    match regexSub(lines[i])
    case None => Step(lines, false, counter)
    case Some(edited) => Step(lines[i := edited], true, counter)
  }

  // ---------------------------------------------------------------------
  // Block mode

  /** `[line.lstrip() for line in ls]`. */
  function LStripAll(ls: seq<string>): seq<string>
  {
    seq(|ls|, k requires 0 <= k < |ls| => LStrip(ls[k]))
  }

  /** `file[i:i + k]`, which stops at the end of the list. */
  function Window(lines: seq<string>, i: nat, k: nat): seq<string>
    requires i <= |lines|
  {
    lines[i..if i + k <= |lines| then i + k else |lines|]
  }

  /** Each replacement line prefixed by `indent`. */
  function Indented(indent: string, ls: seq<string>): seq<string>
  {
    seq(|ls|, k requires 0 <= k < |ls| => indent + ls[k])
  }

  /**
   * `__process_multi_line` at index `i`: the block starting there matches
   * when its lines equal the find lines once both are left-stripped; a
   * match within `count` deletes the block, or replaces it by the
   * replacement lines, each indented like line `i`. (The helper's closing
   * `i += len(replace_lines) - 1` updates its own parameter and has no
   * effect on the walk.)
   */
  function MultiLineStep(lines: seq<string>, i: nat, findLines: seq<string>, replaceLines: seq<string>,
                         counter: int, count: int): Step
    requires i < |lines|
  {
    if LStripAll(Window(lines, i, |findLines|)) != LStripAll(findLines) || !WithinCount(counter, count) then
      Step(lines, false, counter)
    else
      var end := i + |findLines|;
      if replaceLines == [] then Step(lines[..i] + lines[end..], true, counter + 1)
      else Step(lines[..i] + Indented(Indent(lines[i]), replaceLines) + lines[end..], true, counter + 1)
  }

  // ---------------------------------------------------------------------
  // The walk

  /** One turn of the loop of `data_processor` at index `i`. */
  function ProcessLine(p: Params, lines: seq<string>, i: nat, counter: int): Step
    requires p.findLines != [] && i < |lines|
  {
    if SkipLine(p.target, lines[i], p.findLines) then Step(lines, false, counter)
    else if |p.findLines| == 1 then
      if p.regex then RegexStep(lines, i, p.regexSub, counter)
      else SingleLineStep(lines, i, p.findLines[0], p.replaceLines, counter, p.count)
    else MultiLineStep(lines, i, p.findLines, p.replaceLines, counter, p.count)
  }

  /** The loop of `data_processor` from index `i` on; a turn that lengthens the list costs one unit of fuel. */
  function ScanFrom(p: Params, lines: seq<string>, i: nat, counter: int, changes: bool, fuel: nat): Scan
    requires p.findLines != []
    decreases fuel, |lines| - i
  {
    if i >= |lines| then Scanned(lines, changes)
    else
      var s := ProcessLine(p, lines, i, counter);
      if |s.lines| > |lines| then
        if fuel == 0 then OutOfFuel
        else ScanFrom(p, s.lines, i + 1, s.counter, changes || s.changed, fuel - 1)
      else ScanFrom(p, s.lines, i + 1, s.counter, changes || s.changed, fuel)
  }

  /** One turn of the walk that does not run out of fuel. */
  lemma {:induction false} ScanFromStep(p: Params, lines: seq<string>, i: nat, counter: int, changes: bool, fuel: nat, s: Step)
    requires p.findLines != [] && i < |lines| && s == ProcessLine(p, lines, i, counter)
    requires |s.lines| <= |lines| || fuel > 0
    ensures ScanFrom(p, lines, i, counter, changes, fuel) ==
      ScanFrom(p, s.lines, i + 1, s.counter, changes || s.changed, if |s.lines| <= |lines| then fuel else fuel - 1)
  {
  }

  /** One turn of the walk that does not lengthen the list, which costs no fuel. */
  lemma {:induction false} ScanFromKeepingLength(p: Params, lines: seq<string>, i: nat, counter: int, changes: bool, fuel: nat, s: Step)
    requires p.findLines != [] && i < |lines| && s == ProcessLine(p, lines, i, counter) && |s.lines| <= |lines|
    ensures ScanFrom(p, lines, i, counter, changes, fuel) == ScanFrom(p, s.lines, i + 1, s.counter, changes || s.changed, fuel)
  {
  }

  /** A lengthening turn, which costs one unit of fuel. */
  lemma {:induction false} ScanFromLengthening(p: Params, lines: seq<string>, i: nat, counter: int, changes: bool, fuel: nat, s: Step)
    requires p.findLines != [] && i < |lines| && s == ProcessLine(p, lines, i, counter)
    requires |s.lines| > |lines| && fuel > 0
    ensures ScanFrom(p, lines, i, counter, changes, fuel) == ScanFrom(p, s.lines, i + 1, s.counter, changes || s.changed, fuel - 1)
  {
  }

  /** A lengthening turn with no fuel left ends the walk unfinished. */
  lemma {:induction false} ScanFromOutOfFuel(p: Params, lines: seq<string>, i: nat, counter: int, changes: bool, s: Step)
    requires p.findLines != [] && i < |lines| && s == ProcessLine(p, lines, i, counter)
    requires |s.lines| > |lines|
    ensures ScanFrom(p, lines, i, counter, changes, 0) == OutOfFuel
  {
  }

  /** `repr()` of the find lines, as the error message shows them. */
  function ListRepr(ls: seq<string>): string
  {
    "[" + Join(", ", seq(|ls|, k requires 0 <= k < |ls| => "'" + ls[k] + "'")) + "]"
  }

  /** The `NotAppliedError` of `__finalize_changes` when nothing changed. */
  function NoChangesError(p: Params, fileName: string): Error
  {
    var action := if p.replaceLines == [] then "DeleteLine" else "SearchAndReplace";
    NotApplied(action + ": No changes were made for " + ListRepr(p.findLines) + " in " + fileName, "Failed")
  }

  /**
   * The specification of `data_processor` on the file's content: read the
   * lines, walk them, then raise `NotAppliedError` and leave the file alone
   * when nothing changed, or write the whole list back.
   */
  function DataProcessorSpec(content: string, fileName: string, p: Params, fuel: nat): Edit
    requires p.findLines != []
  {
    match Generic.ReadFileToList(content)
    case Failure(e) => Failed(e)
    case Success(lines) =>
      match ScanFrom(p, lines, 0, 0, false, fuel)
      case OutOfFuel => Unfinished
      case Scanned(out, changes) =>
        if !changes then Failed(NoChangesError(p, fileName)) else Edited(Generic.WriteFileFromList(out))
  }

  // ---------------------------------------------------------------------
  // The methods, editing a list in place

  /** `__process_single_line`. */
  method ProcessSingleLine(file: LineList, i: nat, currentLine: string, find: string,
                           replaceLines: seq<string>, counter: int, count: int)
    returns (changed: bool, newCounter: int)
    requires i < |file.lines| && currentLine == file.lines[i]
    modifies file
    ensures var s := SingleLineStep(old(file.lines), i, find, replaceLines, counter, count);
      file.lines == s.lines && changed == s.changed && newCounter == s.counter
  {
    changed, newCounter := false, counter;
    if Contains(currentLine, find) {
      if count != -1 && counter >= count {
        return;
      }
      if replaceLines == [] {
        if Strip(currentLine) == find {
          file.Pop(i);
          return true, counter;
        }
      }
      file.SetAt(i, ReplaceFirst(currentLine, find, Join("\n", replaceLines)));
      newCounter := counter + 1;
      changed := true;
    }
  }

  /** `__process_single_line_regex`. */
  method ProcessSingleLineRegex(file: LineList, i: nat, currentLine: string, regexSub: string -> Option<string>,
                                counter: int)
    returns (changed: bool, newCounter: int)
    requires i < |file.lines| && currentLine == file.lines[i]
    modifies file
    ensures var s := RegexStep(old(file.lines), i, regexSub, counter);
      file.lines == s.lines && changed == s.changed && newCounter == s.counter
  {
    changed, newCounter := false, counter;
    var edited := regexSub(currentLine);
    if edited.Some? {
      file.SetAt(i, edited.value);
      changed := true;
    }
  }

  /** `__process_multi_line`. */
  method ProcessMultiLine(file: LineList, i: nat, findLines: seq<string>, replaceLines: seq<string>,
                          counter: int, count: int)
    returns (changed: bool, newCounter: int)
    requires i < |file.lines|
    modifies file
    ensures var s := MultiLineStep(old(file.lines), i, findLines, replaceLines, counter, count);
      file.lines == s.lines && changed == s.changed && newCounter == s.counter
  {
    changed, newCounter := false, counter;
    var strippedBlock := LStripAll(Window(file.lines, i, |findLines|));
    var strippedFindLines := LStripAll(findLines);
    if strippedBlock == strippedFindLines {
      if count != -1 && counter >= count {
        return;
      }
      assert |Window(file.lines, i, |findLines|)| == |findLines|;
      if replaceLines == [] {
        file.DeleteSlice(i, i + |findLines|);
      } else {
        var indent := Indent(file.lines[i]);
        file.AssignSlice(i, i + |findLines|, Indented(indent, replaceLines));
      }
      newCounter := counter + 1;
      changed := true;
    }
  }

  /**
   * `data_processor`: reads the file, walks its lines and finalizes. The
   * result is the file's new content, or the error raised; `fuel` bounds
   * the lengthening block replacements of a walk that does not end.
   */
  method DataProcessor(content: string, fileName: string, p: Params, fuel: nat) returns (r: Edit)
    requires p.findLines != []
    ensures r == DataProcessorSpec(content, fileName, p, fuel)
  {
    var read := Generic.ReadFileToList(content);
    if read.Failure? {
      return Failed(read.error);
    }
    var file := new LineList(read.value);
    var counter := 0;
    var i := 0;
    var changes := false;
    var fuelLeft := fuel;
    while i < |file.lines|
      invariant ScanFrom(p, file.lines, i, counter, changes, fuelLeft) == ScanFrom(p, read.value, 0, 0, false, fuel)
      decreases fuelLeft, |file.lines| - i
    {
      var currentLine := file.lines[i];
      ghost var lines0, counter0, changes0, fuel0 := file.lines, counter, changes, fuelLeft;
      if SkipLine(p.target, currentLine, p.findLines) {
        ScanFromStep(p, lines0, i, counter0, changes0, fuel0, Step(lines0, false, counter0));
        i := i + 1;
        continue;
      }
      var before := |file.lines|;
      var changed;
      if |p.findLines| == 1 {
        if p.regex {
          changed, counter := ProcessSingleLineRegex(file, i, currentLine, p.regexSub, counter);
        } else {
          changed, counter := ProcessSingleLine(file, i, currentLine, p.findLines[0], p.replaceLines, counter, p.count);
        }
      } else {
        changed, counter := ProcessMultiLine(file, i, p.findLines, p.replaceLines, counter, p.count);
      }
      ghost var s := Step(file.lines, changed, counter);
      assert s == ProcessLine(p, lines0, i, counter0);
      i := i + 1;
      if changed {
        changes := true;
      }
      if |file.lines| > before {
        if fuelLeft == 0 {
          ScanFromOutOfFuel(p, lines0, i - 1, counter0, changes0, s);
          return Unfinished;
        }
        fuelLeft := fuelLeft - 1;
      }
      ScanFromStep(p, lines0, i - 1, counter0, changes0, fuel0, s);
      assert fuelLeft == if |s.lines| <= |lines0| then fuel0 else fuel0 - 1;
      assert changes == (changes0 || s.changed);
    }
    if !changes {
      return Failed(NoChangesError(p, fileName));
    }
    return Edited(Generic.WriteFileFromList(file.lines));
  }

  // ---------------------------------------------------------------------
  // Single-line mode, described on the original list

  /** What a single-line walk leaves: the list, the counter and whether anything changed. */
  datatype Pass = Pass(lines: seq<string>, counter: int, changed: bool)

  /**
   * What the walk does with the first of the original lines `ls` not yet
   * reached: the lines it settles (`emitted`), how many original lines
   * that uses up, the new counter and whether it changed anything. A line
   * removed in delete mode lets its successor slide into its index, which
   * the walk then steps past: that successor is settled unexamined.
   */
  datatype Head = Head(emitted: seq<string>, consumed: nat, counter: int, changed: bool)

  function SingleHead(target: string, find: string, replaceLines: seq<string>, count: int,
                      ls: seq<string>, counter: int): (h: Head)
    requires ls != []
    ensures 1 <= h.consumed <= |ls| && |h.emitted| <= 1
    ensures h.emitted == [] ==> h.consumed == |ls|
    ensures replaceLines != [] ==> |h.emitted| == 1 && h.consumed == 1
  {
    var line := ls[0];
    if SkipLine(target, line, [find]) || !Contains(line, find) || !WithinCount(counter, count) then
      Head([line], 1, counter, false)
    else if replaceLines == [] && Strip(line) == find then
      if |ls| == 1 then Head([], 1, counter, true) else Head([ls[1]], 2, counter, true)
    else Head([ReplaceFirst(line, find, Join("\n", replaceLines))], 1, counter + 1, true)
  }

  /** A reference definition of the single-line walk, stated on the original lines one by one rather than on a list edited under an index. */
  function SinglePass(target: string, find: string, replaceLines: seq<string>, count: int,
                      ls: seq<string>, counter: int): (r: Pass)
    ensures |r.lines| <= |ls|
    ensures replaceLines != [] ==> |r.lines| == |ls|
    decreases |ls|
  {
    if ls == [] then Pass([], counter, false)
    else
      var h := SingleHead(target, find, replaceLines, count, ls, counter);
      var r := SinglePass(target, find, replaceLines, count, ls[h.consumed..], h.counter);
      Pass(h.emitted + r.lines, r.counter, h.changed || r.changed)
  }

  /** A single-line turn never lengthens the list. */
  lemma {:induction false} SingleLineTurnKeepsLength(p: Params, lines: seq<string>, i: nat, counter: int)
    requires |p.findLines| == 1 && i < |lines|
    ensures |ProcessLine(p, lines, i, counter).lines| <= |lines|
  {
  }

  /** The walk's turn at the first line not yet reached settles what `SingleHead` says. */
  lemma {:induction false} HeadIsTurn(p: Params, done: seq<string>, rest: seq<string>, counter: int)
    requires |p.findLines| == 1 && !p.regex && rest != []
    ensures var h := SingleHead(p.target, p.findLines[0], p.replaceLines, p.count, rest, counter);
      var s := ProcessLine(p, done + rest, |done|, counter);
      s.lines == done + h.emitted + rest[h.consumed..] && s.counter == h.counter && s.changed == h.changed
  {
    var find := p.findLines[0];
    var line := rest[0];
    if SkipLine(p.target, line, p.findLines) || !Contains(line, find) || !WithinCount(counter, p.count) {
      KeptTurn(p, done, rest, counter);
    } else if p.replaceLines == [] && Strip(line) == find {
      PoppedTurn(p, done, rest, counter);
    } else {
      ReplacedTurn(p, done, rest, counter);
    }
  }

  lemma {:induction false} KeptTurn(p: Params, done: seq<string>, rest: seq<string>, counter: int)
    requires |p.findLines| == 1 && !p.regex && rest != []
    requires SkipLine(p.target, rest[0], p.findLines) || !Contains(rest[0], p.findLines[0]) || !WithinCount(counter, p.count)
    ensures ProcessLine(p, done + rest, |done|, counter) == Step(done + [rest[0]] + rest[1..], false, counter)
    ensures SingleHead(p.target, p.findLines[0], p.replaceLines, p.count, rest, counter) == Head([rest[0]], 1, counter, false)
  {
    assert (done + rest)[|done|] == rest[0];
    assert done + [rest[0]] + rest[1..] == done + rest;
  }

  lemma {:induction false} PoppedTurn(p: Params, done: seq<string>, rest: seq<string>, counter: int)
    requires |p.findLines| == 1 && !p.regex && rest != []
    requires !SkipLine(p.target, rest[0], p.findLines) && Contains(rest[0], p.findLines[0]) && WithinCount(counter, p.count)
    requires p.replaceLines == [] && Strip(rest[0]) == p.findLines[0]
    ensures ProcessLine(p, done + rest, |done|, counter) == Step(done + rest[1..], true, counter)
    ensures SingleHead(p.target, p.findLines[0], p.replaceLines, p.count, rest, counter) ==
      if |rest| == 1 then Head([], 1, counter, true) else Head([rest[1]], 2, counter, true)
  {
    var lines := done + rest;
    assert lines[|done|] == rest[0];
    assert lines[..|done|] + lines[|done| + 1..] == done + rest[1..];
  }

  lemma {:induction false} ReplacedTurn(p: Params, done: seq<string>, rest: seq<string>, counter: int)
    requires |p.findLines| == 1 && !p.regex && rest != []
    requires !SkipLine(p.target, rest[0], p.findLines) && Contains(rest[0], p.findLines[0]) && WithinCount(counter, p.count)
    requires !(p.replaceLines == [] && Strip(rest[0]) == p.findLines[0])
    ensures var edited := ReplaceFirst(rest[0], p.findLines[0], Join("\n", p.replaceLines));
      ProcessLine(p, done + rest, |done|, counter) == Step(done + [edited] + rest[1..], true, counter + 1) &&
      SingleHead(p.target, p.findLines[0], p.replaceLines, p.count, rest, counter) == Head([edited], 1, counter + 1, true)
  {
    var lines := done + rest;
    var edited := ReplaceFirst(rest[0], p.findLines[0], Join("\n", p.replaceLines));
    assert lines[|done|] == rest[0];
    assert lines[|done| := edited] == done + [edited] + rest[1..];
  }

  lemma {:induction false} ConcatAssoc(a: seq<string>, b: seq<string>, c: seq<string>)
    ensures (a + b) + c == a + (b + c)
  {
  }

  /**
   * One turn of the walk in single-line exact mode, as `SingleHead`
   * describes it: the emitted line joins the final part, or, when the last
   * line was removed, the walk ends.
   */
  lemma {:induction false} ScanSingleTurn(p: Params, done: seq<string>, rest: seq<string>, counter: int, changes: bool, fuel: nat)
    requires |p.findLines| == 1 && !p.regex && rest != []
    ensures var h := SingleHead(p.target, p.findLines[0], p.replaceLines, p.count, rest, counter);
      ScanFrom(p, done + rest, |done|, counter, changes, fuel) ==
      if h.emitted == [] then Scanned(done, changes || h.changed)
      else ScanFrom(p, done + h.emitted + rest[h.consumed..], |done + h.emitted|, h.counter, changes || h.changed, fuel)
  {
    var lines := done + rest;
    var s := ProcessLine(p, lines, |done|, counter);
    var h := SingleHead(p.target, p.findLines[0], p.replaceLines, p.count, rest, counter);
    HeadIsTurn(p, done, rest, counter);
    SingleLineTurnKeepsLength(p, lines, |done|, counter);
    ScanFromKeepingLength(p, lines, |done|, counter, changes, fuel, s);
    if h.emitted == [] {
      assert rest[h.consumed..] == [];
      assert s.lines == done;
    } else {
      assert s.lines == done + h.emitted + rest[h.consumed..];
      assert |done| + 1 == |done + h.emitted|;
    }
  }

  /**
   * The walk in single-line exact mode is the reference pass over the lines
   * not yet reached: the part before index `i` is final.
   */
  lemma {:induction false} ScanIsSinglePass(p: Params, done: seq<string>, rest: seq<string>, counter: int,
                                            changes: bool, fuel: nat)
    requires |p.findLines| == 1 && !p.regex
    ensures var r := SinglePass(p.target, p.findLines[0], p.replaceLines, p.count, rest, counter);
      ScanFrom(p, done + rest, |done|, counter, changes, fuel) == Scanned(done + r.lines, changes || r.changed)
    decreases |rest|
  {
    if rest == [] {
      assert done + rest == done;
    } else {
      var h := SingleHead(p.target, p.findLines[0], p.replaceLines, p.count, rest, counter);
      if h.emitted != [] {
        ScanIsSinglePass(p, done + h.emitted, rest[h.consumed..], h.counter, changes || h.changed, fuel);
      }
      ScanPassTurn(p, done, rest, counter, changes, fuel, h);
    }
  }

  /** The reference pass takes over from the walk after one turn. */
  lemma {:induction false} ScanPassTurn(p: Params, done: seq<string>, rest: seq<string>, counter: int, changes: bool, fuel: nat, h: Head)
    requires |p.findLines| == 1 && !p.regex && rest != []
    requires h == SingleHead(p.target, p.findLines[0], p.replaceLines, p.count, rest, counter)
    requires h.emitted != [] ==>
      var r := SinglePass(p.target, p.findLines[0], p.replaceLines, p.count, rest[h.consumed..], h.counter);
      ScanFrom(p, done + h.emitted + rest[h.consumed..], |done + h.emitted|, h.counter, changes || h.changed, fuel) ==
        Scanned(done + h.emitted + r.lines, changes || h.changed || r.changed)
    ensures var r := SinglePass(p.target, p.findLines[0], p.replaceLines, p.count, rest, counter);
      ScanFrom(p, done + rest, |done|, counter, changes, fuel) == Scanned(done + r.lines, changes || r.changed)
  {
    ScanSingleTurn(p, done, rest, counter, changes, fuel);
    var r := SinglePass(p.target, p.findLines[0], p.replaceLines, p.count, rest[h.consumed..], h.counter);
    assert SinglePass(p.target, p.findLines[0], p.replaceLines, p.count, rest, counter) ==
      Pass(h.emitted + r.lines, r.counter, h.changed || r.changed);
    if h.emitted == [] {
      assert rest[h.consumed..] == [];
      assert done + (h.emitted + r.lines) == done;
    } else {
      ConcatAssoc(done, h.emitted, r.lines);
    }
  }

  /** `find` occurs in a line the walk does not skip. */
  predicate Eligible(target: string, find: string, line: string)
  {
    !SkipLine(target, line, [find]) && Contains(line, find)
  }

  /** `Eligible` as a test on lines. */
  function EligibleTest(target: string, find: string): string -> bool
  {
    line => Eligible(target, find, line)
  }

  /** The edit replace mode makes to a line: the first occurrence of `find` becomes the replacement lines joined with "\n". */
  function ReplaceEdit(find: string, replaceLines: seq<string>): string -> string
  {
    line => ReplaceFirst(line, find, Join("\n", replaceLines))
  }

  /** The number of lines before index `k` that pass `test`. */
  function CountBefore(test: string -> bool, ls: seq<string>, k: nat): (n: nat)
    requires k <= |ls|
    ensures n <= k
  {
    if k == 0 then 0 else CountBefore(test, ls, k - 1) + (if test(ls[k - 1]) then 1 else 0)
  }

  /** Counting from the second line on leaves out only the first line's contribution. */
  lemma {:induction false} CountBeforeShift(test: string -> bool, ls: seq<string>, k: nat)
    requires 0 < k <= |ls|
    ensures CountBefore(test, ls, k) == (if test(ls[0]) then 1 else 0) + CountBefore(test, ls[1..], k - 1)
    decreases k
  {
    if k > 1 {
      CountBeforeShift(test, ls, k - 1);
      assert ls[1..][k - 2] == ls[k - 1];
    }
  }

  /**
   * A walk that edits, in order, each line passing `test` while `count`
   * allows one more edit, every edit advancing the counter; the lines keep
   * their places.
   */
  function CountedMap(test: string -> bool, edit: string -> string, count: int,
                      ls: seq<string>, counter: int): (out: seq<string>)
    ensures |out| == |ls|
  {
    if ls == [] then []
    else [CountedLine(test, edit, count, ls[0], counter)] +
         CountedMap(test, edit, count, ls[1..], CountedNext(test, count, ls[0], counter))
  }

  /** What a counted walk makes of `line` when the counter stands at `counter`. */
  function CountedLine(test: string -> bool, edit: string -> string, count: int, line: string, counter: int): string
  {
    if test(line) && WithinCount(counter, count) then edit(line) else line
  }

  /** The counter a counted walk leaves after `line`. */
  function CountedNext(test: string -> bool, count: int, line: string, counter: int): int
  {
    if test(line) && WithinCount(counter, count) then counter + 1 else counter
  }

  /**
   * Line `k` of a counted walk is edited exactly when it passes the test
   * and `count` still allows an edit after the passing lines before it.
   */
  lemma {:induction false} CountedMapAt(test: string -> bool, edit: string -> string, count: int,
                                        ls: seq<string>, counter: int, k: nat)
    requires k < |ls|
    ensures CountedMap(test, edit, count, ls, counter)[k] == CountedLine(test, edit, count, ls[k], counter + CountBefore(test, ls, k))
    decreases k
  {
    if k > 0 {
      var next := CountedNext(test, count, ls[0], counter);
      CountedMapAt(test, edit, count, ls[1..], next, k - 1);
      CountBeforeShift(test, ls, k);
      WithinAfterCounting(counter, count, test(ls[0]), CountBefore(test, ls[1..], k - 1));
      assert ls[1..][k - 1] == ls[k];
    }
  }

  /**
   * Whether `count` allows an edit after a passing line and `rest` more
   * does not depend on whether the first one was counted: once the
   * counter has reached `count` it stays there.
   */
  lemma {:induction false} WithinAfterCounting(counter: int, count: int, passed: bool, rest: nat)
    ensures WithinCount((if passed && WithinCount(counter, count) then counter + 1 else counter) + rest, count) ==
            WithinCount(counter + (if passed then 1 else 0) + rest, count)
  {
  }

  /** With replacement lines given, the single-line walk removes no line: it is the counted walk of `ReplaceEdit` over eligible lines. */
  lemma {:induction false} ReplaceModeIsCountedMap(target: string, find: string, replaceLines: seq<string>, count: int,
                                                   ls: seq<string>, counter: int)
    requires replaceLines != []
    ensures SinglePass(target, find, replaceLines, count, ls, counter).lines ==
      CountedMap(EligibleTest(target, find), ReplaceEdit(find, replaceLines), count, ls, counter)
    decreases |ls|
  {
    if ls != [] {
      var h := SingleHead(target, find, replaceLines, count, ls, counter);
      ReplaceModeHead(target, find, replaceLines, count, ls, counter);
      ReplaceModeIsCountedMap(target, find, replaceLines, count, ls[1..], h.counter);
    }
  }

  /** The first line of a replace-mode walk settles on its own and leaves the rest to a walk from the next counter. */
  lemma {:induction false} ReplaceModeHead(target: string, find: string, replaceLines: seq<string>, count: int,
                        ls: seq<string>, counter: int)
    requires replaceLines != [] && ls != []
    ensures var h := SingleHead(target, find, replaceLines, count, ls, counter);
      h.consumed == 1 && h.counter == CountedNext(EligibleTest(target, find), count, ls[0], counter) &&
      h.emitted == [CountedLine(EligibleTest(target, find), ReplaceEdit(find, replaceLines), count, ls[0], counter)]
  {
  }

  /**
   * In replace mode the walk ends, keeps the list's length and edits line
   * `k` exactly when `find` occurs in it, it is not skipped, and `count`
   * still allows a replacement after the eligible lines before it; only the
   * first occurrence in the line is replaced, and once `count`
   * replacements are made (`count != -1`) later matches are left alone.
   */
  lemma {:induction false} ReplaceModeWalk(p: Params, lines: seq<string>, fuel: nat, k: nat)
    requires |p.findLines| == 1 && !p.regex && p.replaceLines != [] && k < |lines|
    ensures var r := ScanFrom(p, lines, 0, 0, false, fuel);
      var test := EligibleTest(p.target, p.findLines[0]);
      r.Scanned? && |r.lines| == |lines| &&
      r.lines[k] == CountedLine(test, ReplaceEdit(p.findLines[0], p.replaceLines), p.count, lines[k], CountBefore(test, lines, k))
  {
    WalkIsSinglePass(p, lines, fuel);
    ReplaceModeAt(p.target, p.findLines[0], p.replaceLines, p.count, lines, k);
  }

  lemma {:induction false} ReplaceModeAt(target: string, find: string, replaceLines: seq<string>, count: int,
                                         lines: seq<string>, k: nat)
    requires replaceLines != [] && k < |lines|
    ensures SinglePass(target, find, replaceLines, count, lines, 0).lines[k] ==
      CountedLine(EligibleTest(target, find), ReplaceEdit(find, replaceLines), count, lines[k], CountBefore(EligibleTest(target, find), lines, k))
  {
    var out := SinglePass(target, find, replaceLines, count, lines, 0).lines;
    var mapped := CountedMap(EligibleTest(target, find), ReplaceEdit(find, replaceLines), count, lines, 0);
    ReplaceModeIsCountedMap(target, find, replaceLines, count, lines, 0);
    assert out == mapped;
    CountedMapFromStart(EligibleTest(target, find), ReplaceEdit(find, replaceLines), count, lines, k);
    assert out[k] == mapped[k];
  }

  /** `CountedMapAt` for a walk whose counter starts at 0. */
  lemma {:induction false} CountedMapFromStart(test: string -> bool, edit: string -> string, count: int,
                                               ls: seq<string>, k: nat)
    requires k < |ls|
    ensures CountedMap(test, edit, count, ls, 0)[k] == CountedLine(test, edit, count, ls[k], CountBefore(test, ls, k))
  {
    CountedMapAt(test, edit, count, ls, 0, k);
    assert 0 + CountBefore(test, ls, k) == CountBefore(test, ls, k);
  }

  /** The whole walk in single-line exact mode is the reference pass. */
  lemma {:induction false} WalkIsSinglePass(p: Params, lines: seq<string>, fuel: nat)
    requires |p.findLines| == 1 && !p.regex
    ensures var r := SinglePass(p.target, p.findLines[0], p.replaceLines, p.count, lines, 0);
      ScanFrom(p, lines, 0, 0, false, fuel) == Scanned(r.lines, r.changed)
  {
    ScanIsSinglePass(p, [], lines, 0, false, fuel);
    EmptyConcat(lines);
    EmptyConcat(SinglePass(p.target, p.findLines[0], p.replaceLines, p.count, lines, 0).lines);
  }

  lemma {:induction false} EmptyConcat(a: seq<string>)
    ensures [] + a == a
  {
  }

  /**
   * The replace-mode line in plain terms: the first occurrence of `find`
   * is replaced exactly when the line is eligible and `count` allows.
   */
  lemma {:induction false} ReplaceModeLineIs(target: string, find: string, replaceLines: seq<string>, count: int, line: string, counter: int)
    ensures CountedLine(EligibleTest(target, find), ReplaceEdit(find, replaceLines), count, line, counter) ==
      if Eligible(target, find, line) && WithinCount(counter, count)
      then ReplaceFirst(line, find, Join("\n", replaceLines)) else line
  {
  }

  /** A skipped line survives a replace-mode walk unchanged, whatever it holds. */
  lemma {:induction false} SkippedLinesSurviveReplaceMode(target: string, find: string, replaceLines: seq<string>, count: int,
                                       ls: seq<string>, k: nat)
    requires replaceLines != [] && k < |ls| && SkipLine(target, ls[k], [find])
    ensures var out := SinglePass(target, find, replaceLines, count, ls, 0).lines;
      k < |out| && out[k] == ls[k]
  {
    ReplaceModeAt(target, find, replaceLines, count, ls, k);
    ReplaceModeLineIs(target, find, replaceLines, count, ls[k], CountBefore(EligibleTest(target, find), ls, k));
  }

  /**
   * In delete mode a removed line pulls the next one into the examined
   * index, which then moves on: the next line is kept as it is, even when
   * it is another copy of the deleted line.
   */
  lemma {:induction false} DeletionPassesOverNextLine(target: string, find: string, count: int, ls: seq<string>, counter: int)
    requires |ls| >= 2 && !SkipLine(target, ls[0], [find]) && Contains(ls[0], find)
    requires WithinCount(counter, count) && Strip(ls[0]) == find
    ensures var out := SinglePass(target, find, [], count, ls, counter).lines;
      out != [] && out[0] == ls[1]
  {
    var h := SingleHead(target, find, [], count, ls, counter);
    assert h == Head([ls[1]], 2, counter, true);
  }

  // ---------------------------------------------------------------------
  // What the walk leaves untouched, and when it ends

  /** A turn that reports no change leaves the list and the counter as they were. */
  lemma {:induction false} UnchangedTurnKeepsLines(p: Params, lines: seq<string>, i: nat, counter: int)
    requires p.findLines != [] && i < |lines|
    ensures var s := ProcessLine(p, lines, i, counter);
      !s.changed ==> s.lines == lines && s.counter == counter
  {
  }

  /** Once a change is recorded, a walk that ends reports it. */
  lemma {:induction false} ChangesStick(p: Params, lines: seq<string>, i: nat, counter: int, fuel: nat)
    requires p.findLines != []
    ensures var r := ScanFrom(p, lines, i, counter, true, fuel); r.Scanned? ==> r.changes
    decreases fuel, |lines| - i
  {
    if i < |lines| {
      var s := ProcessLine(p, lines, i, counter);
      if |s.lines| <= |lines| {
        ScanFromKeepingLength(p, lines, i, counter, true, fuel, s);
        ChangesStick(p, s.lines, i + 1, s.counter, fuel);
      } else if fuel > 0 {
        ScanFromLengthening(p, lines, i, counter, true, fuel, s);
        ChangesStick(p, s.lines, i + 1, s.counter, fuel - 1);
      }
    }
  }

  /**
   * A walk that ends with no change recorded returns the list it was
   * given: `data_processor` then raises without rewriting the file.
   */
  lemma {:induction false} NoChangeLeavesLines(p: Params, lines: seq<string>, i: nat, counter: int, fuel: nat)
    requires p.findLines != []
    ensures var r := ScanFrom(p, lines, i, counter, false, fuel);
      r.Scanned? && !r.changes ==> r.lines == lines
    decreases |lines| - i
  {
    if i < |lines| {
      var s := ProcessLine(p, lines, i, counter);
      UnchangedTurnKeepsLines(p, lines, i, counter);
      if s.changed {
        if |s.lines| <= |lines| {
          ScanFromKeepingLength(p, lines, i, counter, false, fuel, s);
          ChangesStick(p, s.lines, i + 1, s.counter, fuel);
        } else if fuel > 0 {
          ScanFromLengthening(p, lines, i, counter, false, fuel, s);
          ChangesStick(p, s.lines, i + 1, s.counter, fuel - 1);
        }
      } else {
        ScanFromKeepingLength(p, lines, i, counter, false, fuel, s);
        NoChangeLeavesLines(p, lines, i + 1, counter, fuel);
      }
    }
  }

  /** A block that would run past the end of the list never matches. */
  lemma {:induction false} BlockPastEndNeverMatches(lines: seq<string>, i: nat, findLines: seq<string>,
                                                    replaceLines: seq<string>, counter: int, count: int)
    requires i < |lines| < i + |findLines|
    ensures MultiLineStep(lines, i, findLines, replaceLines, counter, count) == Step(lines, false, counter)
  {
    assert |LStripAll(Window(lines, i, |findLines|))| < |LStripAll(findLines)|;
  }

  /**
   * No turn lengthens the list unless it is a block turn whose replacement
   * is longer than the block.
   */
  lemma {:induction false} TurnLengthBound(p: Params, lines: seq<string>, i: nat, counter: int)
    requires p.findLines != [] && i < |lines|
    ensures var s := ProcessLine(p, lines, i, counter);
      |s.lines| <= |lines| - |p.findLines| + |p.replaceLines| || |s.lines| <= |lines|
  {
    if !SkipLine(p.target, lines[i], p.findLines) && |p.findLines| > 1 && i + |p.findLines| > |lines| {
      BlockPastEndNeverMatches(lines, i, p.findLines, p.replaceLines, counter, p.count);
    }
  }

  /**
   * When the replacement is no longer than what it replaces, the walk
   * always ends, whatever the fuel, and leaves no more lines than it was
   * given: fuel only bounds lengthening block replacements.
   */
  lemma {:induction false} WalkEndsWithoutGrowth(p: Params, lines: seq<string>, i: nat, counter: int, changes: bool, fuel: nat)
    requires p.findLines != [] && (|p.findLines| == 1 || |p.replaceLines| <= |p.findLines|)
    ensures var r := ScanFrom(p, lines, i, counter, changes, fuel); r.Scanned? && |r.lines| <= |lines|
    decreases |lines| - i
  {
    if i < |lines| {
      var s := ProcessLine(p, lines, i, counter);
      TurnLengthBound(p, lines, i, counter);
      if |p.findLines| == 1 {
        SingleLineTurnKeepsLength(p, lines, i, counter);
      }
      ScanFromKeepingLength(p, lines, i, counter, changes, fuel, s);
      WalkEndsWithoutGrowth(p, s.lines, i + 1, s.counter, changes || s.changed, fuel);
    }
  }

  // ---------------------------------------------------------------------
  // Block replacement

  /** Leading whitespace disappears under `lstrip()`. */
  lemma {:induction false} LStripPastIndent(indent: string, r: string)
    requires forall j :: 0 <= j < |indent| ==> IsSpace(indent[j])
    ensures LStrip(indent + r) == LStrip(r)
    decreases |indent|
  {
    if indent != [] {
      var s := indent + r;
      assert s[0] == indent[0];
      assert LStrip(s) == LStrip(s[1..]);
      assert s[1..] == indent[1..] + r;
      LStripPastIndent(indent[1..], r);
    } else {
      assert indent + r == r;
    }
  }

  /** `Indent` is whitespace only. */
  lemma {:induction false} IndentIsSpace(s: string)
    ensures forall j :: 0 <= j < |Indent(s)| ==> IsSpace(Indent(s)[j])
  {
    var r := LStrip(s);
    assert Indent(s) == s[..|s| - |r|];
  }

  /**
   * A matched block in replace mode becomes the replacement lines, each
   * prefixed with the leading whitespace of the block's first line, so they
   * left-strip to the same text as the replacement. The lines before and
   * after are kept.
   */
  lemma {:induction false} BlockReplacementShape(lines: seq<string>, i: nat, findLines: seq<string>,
                                                 replaceLines: seq<string>, counter: int, count: int)
    requires i < |lines| && replaceLines != []
    requires LStripAll(Window(lines, i, |findLines|)) == LStripAll(findLines) && WithinCount(counter, count)
    ensures var s := MultiLineStep(lines, i, findLines, replaceLines, counter, count);
      var j := i + |replaceLines|;
      i + |findLines| <= |lines| && |s.lines| == |lines| - |findLines| + |replaceLines| &&
      s.lines[..i] == lines[..i] && s.lines[j..] == lines[i + |findLines|..] &&
      LStripAll(s.lines[i..j]) == LStripAll(replaceLines) && s.changed && s.counter == counter + 1
    ensures var s := MultiLineStep(lines, i, findLines, replaceLines, counter, count);
      forall k :: 0 <= k < |replaceLines| ==> s.lines[i + k] == Indent(lines[i]) + replaceLines[k]
  {
    assert |Window(lines, i, |findLines|)| == |findLines|;
    var s := MultiLineStep(lines, i, findLines, replaceLines, counter, count);
    var block := Indented(Indent(lines[i]), replaceLines);
    var j := i + |replaceLines|;
    assert s.lines == lines[..i] + block + lines[i + |findLines|..];
    assert s.lines[i..j] == block;
    IndentIsSpace(lines[i]);
    forall k | 0 <= k < |replaceLines|
      ensures LStripAll(block)[k] == LStripAll(replaceLines)[k]
    {
      LStripPastIndent(Indent(lines[i]), replaceLines[k]);
    }
    forall k | 0 <= k < |replaceLines|
      ensures s.lines[i + k] == Indent(lines[i]) + replaceLines[k]
    {
      assert s.lines[i + k] == block[k];
    }
  }

  /**
   * A matched block in delete mode is removed whole: the block lay entirely
   * inside the list, the lines before and after it are kept in order, and
   * the deletion counts as one replacement.
   */
  lemma {:induction false} BlockDeletionShape(lines: seq<string>, i: nat, findLines: seq<string>, counter: int, count: int)
    requires i < |lines|
    requires LStripAll(Window(lines, i, |findLines|)) == LStripAll(findLines) && WithinCount(counter, count)
    ensures var s := MultiLineStep(lines, i, findLines, [], counter, count);
      var end := i + |findLines|;
      end <= |lines| && LStripAll(lines[i..end]) == LStripAll(findLines) &&
      |s.lines| == |lines| - |findLines| &&
      s.lines[..i] == lines[..i] && s.lines[i..] == lines[end..] &&
      s.changed && s.counter == counter + 1
  {
    assert |Window(lines, i, |findLines|)| == |findLines|;
    assert Window(lines, i, |findLines|) == lines[i..i + |findLines|];
  }

  /** A block turn changes the list exactly when the block matches and `count` allows one more replacement. */
  lemma {:induction false} BlockStepChangesIff(lines: seq<string>, i: nat, findLines: seq<string>,
                                               replaceLines: seq<string>, counter: int, count: int)
    requires i < |lines|
    ensures var s := MultiLineStep(lines, i, findLines, replaceLines, counter, count);
      (s.changed <==> LStripAll(Window(lines, i, |findLines|)) == LStripAll(findLines) && WithinCount(counter, count)) &&
      (!s.changed ==> s.lines == lines && s.counter == counter)
  {
  }

  // ---------------------------------------------------------------------
  // A walk that does not end

  /** `n` copies of `line`. */
  function Copies(line: string, n: nat): (r: seq<string>)
    ensures |r| == n && forall j :: 0 <= j < n ==> r[j] == line
  {
    if n == 0 then [] else Copies(line, n - 1) + [line]
  }

  /** The block edit used by `BlockEditNeverEnds`: "a", "b" becomes "a", "a", "b" everywhere in a plain file. */
  function GrowingEdit(): Params
  {
    Params("plain", ["a", "b"], ["a", "a", "b"], -1, false, _ => None)
  }

  /** One turn of that edit at the first "a" of "a"..."a" "b": the list grows by an "a" and the match moves one line on. */
  lemma {:induction false} GrowingTurn(n: nat, counter: int)
    ensures var lines := Copies("a", n) + ["a", "b"];
      ProcessLine(GrowingEdit(), lines, n, counter) == Step(Copies("a", n + 1) + ["a", "b"], true, counter + 1)
  {
    var lines := Copies("a", n) + ["a", "b"];
    GrowingBlockMatches(n);
    assert !SkipLine("plain", lines[n], ["a", "b"]);
    assert MultiLineStep(lines, n, ["a", "b"], ["a", "a", "b"], counter, -1) ==
      Step(lines[..n] + Indented(Indent(lines[n]), ["a", "a", "b"]) + lines[n + 2..], true, counter + 1);
    GrowingBlockReplaced(n);
  }

  lemma {:induction false} GrowingBlockMatches(n: nat)
    ensures var lines := Copies("a", n) + ["a", "b"];
      lines[n] == "a" && LStripAll(Window(lines, n, 2)) == LStripAll(["a", "b"])
  {
    var lines := Copies("a", n) + ["a", "b"];
    assert Window(lines, n, 2) == ["a", "b"];
  }

  lemma {:induction false} GrowingBlockReplaced(n: nat)
    ensures var lines := Copies("a", n) + ["a", "b"];
      lines[..n] + Indented(Indent(lines[n]), ["a", "a", "b"]) + lines[n + 2..] == Copies("a", n + 1) + ["a", "b"]
  {
    var lines := Copies("a", n) + ["a", "b"];
    assert lines[n] == "a";
    PlainIndent();
    IndentedByNothing(["a", "a", "b"]);
    assert lines[..n] == Copies("a", n) && lines[n + 2..] == [];
    ConcatAssoc(Copies("a", n), ["a"], ["a", "b"]);
    assert ["a"] + ["a", "b"] == ["a", "a", "b"];
  }

  lemma {:induction false} IndentedByNothing(ls: seq<string>)
    ensures Indented("", ls) == ls
  {
    forall k | 0 <= k < |ls|
      ensures Indented("", ls)[k] == ls[k]
    {
      assert "" + ls[k] == ls[k];
    }
  }

  lemma PlainIndent()
    ensures Indent("a") == ""
  {
    assert !IsSpace('a');
    assert LStrip("a") == "a";
  }

  /**
   * A walk in which every turn, from index `n` on, lengthens the list and
   * leaves at the next index a list of the same family never ends, however
   * much fuel it is given.
   */
  lemma {:induction false} EndlessGrowth(p: Params, family: nat -> seq<string>, n: nat, counter: int, changes: bool, fuel: nat)
    requires p.findLines != []
    requires forall m: nat :: m < |family(m)| < |family(m + 1)|
    requires forall m: nat, c: int :: m < |family(m)| ==> ProcessLine(p, family(m), m, c) == Step(family(m + 1), true, c + 1)
    ensures ScanFrom(p, family(n), n, counter, changes, fuel) == OutOfFuel
    decreases fuel
  {
    var s := Step(family(n + 1), true, counter + 1);
    assert n < |family(n)| < |family(n + 1)|;
    assert s == ProcessLine(p, family(n), n, counter);
    if fuel == 0 {
      ScanFromOutOfFuel(p, family(n), n, counter, changes, s);
    } else {
      ScanFromLengthening(p, family(n), n, counter, changes, fuel, s);
      EndlessGrowth(p, family, n + 1, counter + 1, true, fuel - 1);
    }
  }

  /**
   * With `count` -1, replacing "a", "b" by "a", "a", "b" re-creates the
   * block one line further on: the walk over "a", "b" runs out of any fuel.
   */
  lemma {:induction false} BlockEditNeverEnds(fuel: nat)
    ensures ScanFrom(GrowingEdit(), ["a", "b"], 0, 0, false, fuel) == OutOfFuel
  {
    GrowingEditRegrows();
    assert GrowingLines(0) == ["a", "b"];
    EndlessGrowth(GrowingEdit(), GrowingLines, 0, 0, false, fuel);
  }

  /** "a" repeated `m` times, then "a", "b". */
  function GrowingLines(m: nat): (r: seq<string>)
    ensures |r| == m + 2
  {
    Copies("a", m) + ["a", "b"]
  }

  /** Each turn of the growing edit leaves the next list of the family. */
  lemma {:induction false} GrowingEditRegrows()
    ensures forall m: nat, c: int :: m < |GrowingLines(m)| ==>
      ProcessLine(GrowingEdit(), GrowingLines(m), m, c) == Step(GrowingLines(m + 1), true, c + 1)
  {
    forall m: nat, c: int | m < |GrowingLines(m)|
      ensures ProcessLine(GrowingEdit(), GrowingLines(m), m, c) == Step(GrowingLines(m + 1), true, c + 1)
    {
      GrowingTurn(m, c);
    }
  }

  // ---------------------------------------------------------------------
  // The walk as intended

  /**
   * The index at which the walk resumes once `__process_multi_line`'s
   * closing `i += len(replace_lines) - 1` reaches the walk: past the
   * replacement lines after a block turn that changed the list, at the
   * next line otherwise.
   */
  function ResumeAt(p: Params, s: Step, i: nat): nat
  {
    if |p.findLines| > 1 && s.changed then i + |p.replaceLines| else i + 1
  }

  /** Every turn leaves fewer lines still to visit, once the walk resumes where `ResumeAt` says. */
  lemma {:induction false} ResumingTurnShrinks(p: Params, lines: seq<string>, i: nat, counter: int)
    requires p.findLines != [] && i < |lines|
    ensures var s := ProcessLine(p, lines, i, counter);
      |s.lines| - ResumeAt(p, s, i) < |lines| - i
  {
    var s := ProcessLine(p, lines, i, counter);
    if |p.findLines| == 1 {
      SingleLineTurnKeepsLength(p, lines, i, counter);
    } else if !s.changed {
      if !SkipLine(p.target, lines[i], p.findLines) {
        BlockStepChangesIff(lines, i, p.findLines, p.replaceLines, counter, p.count);
      }
    } else {
      BlockStepChangesIff(lines, i, p.findLines, p.replaceLines, counter, p.count);
      if p.replaceLines == [] {
        BlockDeletionShape(lines, i, p.findLines, counter, p.count);
      } else {
        BlockReplacementShape(lines, i, p.findLines, p.replaceLines, counter, p.count);
      }
    }
  }

  /**
   * The loop of `data_processor` with the walk resuming past each block
   * replacement: it always ends, so it needs no fuel.
   */
  function ScanResuming(p: Params, lines: seq<string>, i: nat, counter: int, changes: bool): (r: (seq<string>, bool))
    requires p.findLines != []
    ensures i >= |lines| ==> r == (lines, changes)
    ensures changes ==> r.1
    decreases |lines| - i
  {
    if i >= |lines| then (lines, changes)
    else
      var s := ProcessLine(p, lines, i, counter);
      ResumingTurnShrinks(p, lines, i, counter);
      ScanResuming(p, s.lines, ResumeAt(p, s, i), s.counter, changes || s.changed)
  }

  /** The growing edit's first turn over "a", "b". */
  lemma GrowingFirstTurn()
    ensures ProcessLine(GrowingEdit(), ["a", "b"], 0, 0) == Step(["a", "a", "b"], true, 1)
  {
    GrowingTurn(0, 0);
    assert Copies("a", 0) + ["a", "b"] == ["a", "b"];
    assert Copies("a", 1) == ["a"];
    assert Copies("a", 1) + ["a", "b"] == ["a", "a", "b"];
  }

  /** The growing edit that never ends as written ends after one replacement once the walk resumes past it. */
  lemma GrowingEditEndsWhenResuming()
    ensures ScanResuming(GrowingEdit(), ["a", "b"], 0, 0, false) == (["a", "a", "b"], true)
  {
    GrowingFirstTurn();
    var s := Step(["a", "a", "b"], true, 1);
    assert ResumeAt(GrowingEdit(), s, 0) == 3;
  }

  /** In single-line mode the correction changes nothing: the written walk ends, whatever its fuel, where the intended one does. */
  lemma {:induction false} ResumingAgreesInLineMode(p: Params, lines: seq<string>, i: nat, counter: int, changes: bool, fuel: nat)
    requires |p.findLines| == 1
    ensures var r := ScanResuming(p, lines, i, counter, changes);
      ScanFrom(p, lines, i, counter, changes, fuel) == Scanned(r.0, r.1)
    decreases |lines| - i
  {
    if i < |lines| {
      var s := ProcessLine(p, lines, i, counter);
      SingleLineTurnKeepsLength(p, lines, i, counter);
      ScanFromKeepingLength(p, lines, i, counter, changes, fuel, s);
      ResumingAgreesInLineMode(p, s.lines, i + 1, s.counter, changes || s.changed, fuel);
    }
  }
}
