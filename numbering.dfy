/**
 * Adding a `Source<N>:` or `Patch<N>:` directive to a spec file
 * (pv2/srpmproc/util.py). The spec is reversed first, so "first in the
 * list" below means "last in the file"; every search runs over the
 * reversed list, and the result is reversed back.
 */
module SrpmUtil {
  import opened Wrappers
  import opened Text
  import opened Errors
  import opened Lines
  import RpmUtil

  /** The message of the RpmParseError raised when no Source directive exists; it is a plain string, not an f-string. */
  const NoDirectiveMessage := "Unable to parse, there was no {directive_type.value} found"
  /** Python's message for `None + 1`. */
  const NoneAddMessage := "unsupported operand type(s) for +: 'NoneType' and 'int'"
  /** Python's message for `list.insert(None, x)`. */
  const NoneIndexMessage := "'NoneType' object cannot be interpreted as an integer"
  const NoApplyLineMessage := "Unable to find a line where we can apply the patch"

  /** The directive kinds; their text is "Source" and "Patch". */
  datatype Directive = Source | Patch

  function DirectiveName(d: Directive): string
  {
    match d
    case Source => "Source"
    case Patch => "Patch"
  }

  /** How a package applies its patches. */
  datatype PatchType = Obsolete | PSpace | PNoSpace | Kernel | IncFile | Autosetup

  /** The four styles that are written as one apply line per patch. */
  predicate IsLineStyle(t: PatchType)
  {
    t == Obsolete || t == PSpace || t == PNoSpace || t == Kernel
  }

  // ---------------------------------------------------------------------
  // Patch lines

  /** `''.join(name.split('.')[:-1])`: the name without its last extension, with the other dots removed. */
  function PatchStem(name: string): (r: string)
    ensures forall i :: 0 <= i < |r| ==> r[i] != '.'
  {
    if name == [] then ""
    else if name[|name| - 1] == '.' then WithoutDots(name[..|name| - 1])
    else PatchStem(name[..|name| - 1])
  }

  function WithoutDots(s: string): (r: string)
    ensures forall i :: 0 <= i < |r| ==> r[i] != '.'
  {
    if s == [] then "" else WithoutDots(s[..|s| - 1]) + (if s[|s| - 1] == '.' then "" else [s[|s| - 1]])
  }

  /** `generate_patch_line`: the apply line for one patch, or RpmParseError for a style without one. */
  function GeneratePatchLine(patchName: string, patchNumber: string, t: Option<PatchType>): (r: Result<string, Error>)
    ensures r.Success? <==> t.Some? && IsLineStyle(t.value)
    ensures r.Failure? ==> r.error == Error(RpmParseError, "Unknown patch type")
  {
    match t
    case Some(Obsolete) => Success("%patch" + patchNumber + " -p1")
    case Some(PSpace) => Success("%patch -P " + patchNumber + " -p1")
    case Some(PNoSpace) => Success("%patch -P" + patchNumber + " -p1")
    case Some(Kernel) => Success("ApplyPatch " + patchName + ".patch")
    case _ => Failure(Error(RpmParseError, "Unknown patch type"))
  }

  /** The first index at or after `i` that is not whitespace. */
  function SkipSpace(s: string, i: nat): (j: nat)
    requires i <= |s|
    ensures i <= j <= |s|
    ensures forall k :: i <= k < j ==> IsSpace(s[k])
    ensures j < |s| ==> !IsSpace(s[j])
    decreases |s| - i
  {
    if i < |s| && IsSpace(s[i]) then SkipSpace(s, i + 1) else i
  }

  predicate DigitAt(s: string, i: nat)
  {
    i < |s| && IsAsciiDigit(s[i])
  }

  /** `^%patch[0-9]{1,5}`. */
  predicate IsObsoleteLine(line: string)
  {
    StartsWith(line, "%patch") && DigitAt(line, 6)
  }

  /** `^%patch\s+-P\s+[0-9]{1,5}`. */
  predicate IsPSpaceLine(line: string)
  {
    StartsWith(line, "%patch") &&
    var j := SkipSpace(line, 6);
    j > 6 && OccursAt(line, "-P", j) &&
    var k := SkipSpace(line, j + 2);
    k > j + 2 && DigitAt(line, k)
  }

  /** `^%patch\s+-P[0-9]{1,5}`. */
  predicate IsPNoSpaceLine(line: string)
  {
    StartsWith(line, "%patch") &&
    var j := SkipSpace(line, 6);
    j > 6 && OccursAt(line, "-P", j) && DigitAt(line, j + 2)
  }

  /** `^(ApplyOptionalPatch|ApplyPatch)`. */
  predicate IsKernelLine(line: string)
  {
    StartsWith(line, "ApplyOptionalPatch") || StartsWith(line, "ApplyPatch")
  }

  /** `get_patch_type_by_line`: the first of the four forms the line has, tried in order. */
  function GetPatchTypeByLine(line: string): (r: Option<PatchType>)
    ensures r.None? <==> !IsObsoleteLine(line) && !IsPSpaceLine(line) && !IsPNoSpaceLine(line) && !IsKernelLine(line)
    ensures r.Some? ==> IsLineStyle(r.value)
  {
    if IsObsoleteLine(line) then Some(Obsolete)
    else if IsPSpaceLine(line) then Some(PSpace)
    else if IsPNoSpaceLine(line) then Some(PNoSpace)
    else if IsKernelLine(line) then Some(Kernel)
    else None
  }

  /**
   * `check_obsolete_patch` holds exactly when some line is classified as an
   * obsolete-style apply line: `^%patch\d+` and `^%patch[0-9]{1,5}` both need
   * only one digit after "%patch".
   */
  lemma CheckObsoletePatchAgrees(lines: seq<string>)
    ensures RpmUtil.CheckObsoletePatch(lines) <==>
              exists i :: 0 <= i < |lines| && GetPatchTypeByLine(lines[i]) == Some(Obsolete)
  {
    forall i | 0 <= i < |lines|
      ensures (StartsWith(lines[i], "%patch") && |lines[i]| > 6 && IsAsciiDigit(lines[i][6]))
              <==> GetPatchTypeByLine(lines[i]) == Some(Obsolete)
    {
    }
  }

  lemma SkipSpaceAtNonSpace(s: string, i: nat)
    requires i < |s| && !IsSpace(s[i])
    ensures SkipSpace(s, i) == i
  {
  }

  /**
   * Each generated apply line is classified back as the style it was
   * generated for, provided the number is a non-empty run of digits.
   */
  lemma ClassifyGeneratedPatchLine(patchName: string, patchNumber: string, t: PatchType)
    requires IsLineStyle(t) && patchNumber != "" && AllDigits(patchNumber)
    ensures GetPatchTypeByLine(GeneratePatchLine(patchName, patchNumber, Some(t)).value) == Some(t)
  {
    var line := GeneratePatchLine(patchName, patchNumber, Some(t)).value;
    match t
    case Obsolete =>
      assert line[6] == patchNumber[0];
    case PSpace =>
      assert line == "%patch -P " + patchNumber + " -p1";
      assert line[6] == ' ' && line[7] == '-';
      assert !IsObsoleteLine(line);
      SkipSpaceAtNonSpace(line, 7);
      assert line[7..9] == "-P";
      assert line[9] == ' ' && line[10] == patchNumber[0];
      SkipSpaceAtNonSpace(line, 10);
    case PNoSpace =>
      assert line == "%patch -P" + patchNumber + " -p1";
      assert line[6] == ' ' && line[7] == '-';
      assert !IsObsoleteLine(line);
      SkipSpaceAtNonSpace(line, 7);
      assert line[7..9] == "-P";
      assert line[9] == patchNumber[0];
      SkipSpaceAtNonSpace(line, 9);
    case Kernel =>
      assert line[..10] == "ApplyPatch";
  }

  /** The index of the first classifiable apply line. */
  function FirstPatchLine(lines: seq<string>): (r: Option<nat>)
    ensures r.None? <==> forall i :: 0 <= i < |lines| ==> GetPatchTypeByLine(lines[i]).None?
    ensures r.Some? ==> r.value < |lines| && GetPatchTypeByLine(lines[r.value]).Some? &&
                        forall j :: 0 <= j < r.value ==> GetPatchTypeByLine(lines[j]).None?
  {
    if lines == [] then None
    else if GetPatchTypeByLine(lines[0]).Some? then Some(0)
    else
      match FirstPatchLine(lines[1..])
      case None => None
      case Some(k) => Some(k + 1)
  }

  /**
   * `get_patch_type`: "kernel" is always KERNEL, then a `.patches` file
   * means INC_FILE, then autosetup, then the style of the first apply line
   * of the (reversed) list.
   */
  function GetPatchType(lines: seq<string>, packageName: string, patchFile: bool): (r: Option<PatchType>)
    ensures packageName == "kernel" ==> r == Some(Kernel)
    ensures packageName != "kernel" && patchFile ==> r == Some(IncFile)
    ensures packageName != "kernel" && !patchFile && RpmUtil.SpecAutosetup(lines) ==> r == Some(Autosetup)
    ensures packageName != "kernel" && !patchFile && !RpmUtil.SpecAutosetup(lines) ==>
      (r.None? <==> FirstPatchLine(lines).None?) &&
      (r.Some? ==> r == GetPatchTypeByLine(lines[FirstPatchLine(lines).value]))
  {
    if packageName == "kernel" then Some(Kernel)
    else if patchFile then Some(IncFile)
    else if RpmUtil.SpecAutosetup(lines) then Some(Autosetup)
    else
      match FirstPatchLine(lines)
      case None => None
      case Some(k) => GetPatchTypeByLine(lines[k])
  }

  // ---------------------------------------------------------------------
  // Conditional blocks

  /** `\w` for the character after "%endif"; ASCII letters, digits and "_". */
  predicate IsWordChar(c: char)
  {
    'a' <= c <= 'z' || 'A' <= c <= 'Z' || '0' <= c <= '9' || c == '_'
  }

  /** `^%endif\b`. */
  predicate IsEndifLine(line: string)
  {
    StartsWith(line, "%endif") && (|line| == 6 || !IsWordChar(line[6]))
  }

  /** `^%if*`, which is any line starting "%i". */
  predicate IsIfLine(line: string)
  {
    StartsWith(line, "%i")
  }

  /** The `conditional` flag after the first `n` lines: set by "%endif", cleared by the next "%i" line. */
  function InConditional(lines: seq<string>, n: nat): bool
    requires n <= |lines|
  {
    if n == 0 then false
    else
      var c := InConditional(lines, n - 1);
      if IsEndifLine(lines[n - 1]) then true
      else if IsIfLine(lines[n - 1]) && c then false
      else c
  }

  /** The index of the last "%endif" among the first `n` lines. */
  function LastEndif(lines: seq<string>, n: nat): (r: Option<nat>)
    requires n <= |lines|
    ensures r.Some? ==> r.value < n && IsEndifLine(lines[r.value])
    ensures r.Some? ==> forall j :: r.value < j < n ==> !IsEndifLine(lines[j])
    ensures r.None? ==> forall j :: 0 <= j < n ==> !IsEndifLine(lines[j])
  {
    if n == 0 then None
    else if IsEndifLine(lines[n - 1]) then Some(n - 1)
    else LastEndif(lines, n - 1)
  }

  /** Line `e` is a "%endif" and no "%i" line follows it among the first `n` lines. */
  predicate OpenEndifAt(lines: seq<string>, e: nat, n: nat)
    requires e < n <= |lines|
  {
    IsEndifLine(lines[e]) && forall j :: e < j < n ==> !IsIfLine(lines[j])
  }

  /**
   * The flag holds exactly when some "%endif" among the first `n` lines is
   * followed by no "%i" line: in file order, the position sits inside a
   * conditional block that has not yet been opened when read backwards.
   */
  lemma {:induction false} ConditionalMeansOpenEndif(lines: seq<string>, n: nat)
    requires n <= |lines|
    ensures InConditional(lines, n) <==> exists e :: 0 <= e < n && OpenEndifAt(lines, e, n)
    ensures InConditional(lines, n) ==> LastEndif(lines, n).Some?
  {
    if n > 0 {
      ConditionalMeansOpenEndif(lines, n - 1);
      var l := lines[n - 1];
      if IsEndifLine(l) {
        assert OpenEndifAt(lines, n - 1, n);
      } else if IsIfLine(l) {
        forall e | 0 <= e < n
          ensures !OpenEndifAt(lines, e, n)
        {
        }
      } else {
        if InConditional(lines, n) {
          var e :| 0 <= e < n - 1 && OpenEndifAt(lines, e, n - 1);
          assert OpenEndifAt(lines, e, n);
        }
        if exists e :: 0 <= e < n && OpenEndifAt(lines, e, n) {
          var e :| 0 <= e < n && OpenEndifAt(lines, e, n);
          assert OpenEndifAt(lines, e, n - 1);
        }
      }
    }
  }

  /** How one more line moves the flag and the last "%endif". */
  lemma ConditionalStep(lines: seq<string>, i: nat)
    requires i < |lines|
    ensures InConditional(lines, i + 1) ==
      if IsEndifLine(lines[i]) then true
      else if IsIfLine(lines[i]) && InConditional(lines, i) then false
      else InConditional(lines, i)
    ensures LastEndif(lines, i + 1) == if IsEndifLine(lines[i]) then Some(i) else LastEndif(lines, i)
    ensures EndifAnchor(lines, i + 1) == if IsEndifLine(lines[i]) then Some(i - 1) else EndifAnchor(lines, i)
  {
  }

  /** `last_endif_idx`: one before the last "%endif" among the first `n` lines. */
  function EndifAnchor(lines: seq<string>, n: nat): Option<int>
    requires n <= |lines|
  {
    match LastEndif(lines, n)
    case None => None
    case Some(e) => Some(e - 1)
  }

  // ---------------------------------------------------------------------
  // Directives

  /** The directive line `add_new_source` writes. */
  function DirectiveLine(d: Directive, newNumber: string, sourceName: string): string
  {
    DirectiveName(d) + newNumber + ": " + sourceName
  }

  /** `([0-9]*):` at the start of `s`: the digits before the colon. */
  function DigitsThenColon(s: string): (r: Option<string>)
    ensures r.Some? ==> AllDigits(r.value) && |r.value| < |s|
  {
    if s == [] then None
    else if s[0] == ':' then Some("")
    else if IsAsciiDigit(s[0]) then
      (match DigitsThenColon(s[1..])
       case Some(t) => Some([s[0]] + t)
       case None => None)
    else None
  }

  /** `re.match(rf"{d}([0-9]*):", line)`: the digit group when the line is such a directive. */
  function DirectiveDigits(line: string, d: Directive): Option<string>
  {
    var name := DirectiveName(d);
    if name <= line then DigitsThenColon(line[|name|..]) else None
  }

  lemma {:induction false} DigitsThenColonOf(digits: string, rest: string)
    requires AllDigits(digits)
    ensures DigitsThenColon(digits + ":" + rest) == Some(digits)
    decreases |digits|
  {
    if digits != [] {
      assert (digits + ":" + rest)[1..] == digits[1..] + ":" + rest;
      DigitsThenColonOf(digits[1..], rest);
      assert [digits[0]] + digits[1..] == digits;
    }
  }

  /** A directive a match reports starts with the directive name, its digits and a colon. */
  lemma {:induction false} DirectiveDigitsShape(line: string, d: Directive)
    requires DirectiveDigits(line, d).Some?
    ensures DirectiveName(d) + DirectiveDigits(line, d).value + ":" <= line
  {
    var name := DirectiveName(d);
    DigitsThenColonShape(line[|name|..]);
    assert line == name + line[|name|..];
  }

  lemma {:induction false} DigitsThenColonShape(s: string)
    requires DigitsThenColon(s).Some?
    ensures DigitsThenColon(s).value + ":" <= s
  {
    if s[0] != ':' {
      DigitsThenColonShape(s[1..]);
      assert s == [s[0]] + s[1..];
    }
  }

  /** The line `add_new_source` writes is read back as a directive of the same kind with the same number. */
  lemma DirectiveLineRoundTrip(d: Directive, newNumber: string, sourceName: string)
    requires AllDigits(newNumber)
    ensures DirectiveDigits(DirectiveLine(d, newNumber, sourceName), d) == Some(newNumber)
  {
    var line := DirectiveLine(d, newNumber, sourceName);
    var name := DirectiveName(d);
    assert line == name + (newNumber + ":" + " " + sourceName);
    assert line[|name|..] == newNumber + ":" + (" " + sourceName);
    DigitsThenColonOf(newNumber, " " + sourceName);
  }

  /** The index of the first directive line of kind `d`. */
  function FirstDirective(lines: seq<string>, d: Directive): (r: Option<nat>)
    ensures r.None? <==> forall i :: 0 <= i < |lines| ==> DirectiveDigits(lines[i], d).None?
    ensures r.Some? ==> r.value < |lines| && DirectiveDigits(lines[r.value], d).Some? &&
                        forall j :: 0 <= j < r.value ==> DirectiveDigits(lines[j], d).None?
  {
    if lines == [] then None
    else if DirectiveDigits(lines[0], d).Some? then Some(0)
    else
      match FirstDirective(lines[1..], d)
      case None => None
      case Some(k) => Some(k + 1)
  }

  /** What `get_last_directive` returns. */
  datatype DirectiveAnchor = DirectiveAnchor(lastNumber: Option<nat>, lastIdx: Option<int>, noNumbers: bool)

  /**
   * The specification of `get_last_directive` on the reversed list. The
   * scan stops just after the first directive of kind `d`. The anchor is
   * that line, unless the scan is then inside a conditional block; then, or
   * when there is no such directive, it is one before the last "%endif"
   * seen, if any.
   */
  function LastDirectiveOf(lines: seq<string>, d: Directive): Result<DirectiveAnchor, Error>
  {
    var found := FirstDirective(lines, d);
    var stop := if found.Some? then found.value + 1 else |lines|;
    var digits := if found.Some? then DirectiveDigits(lines[found.value], d) else None;
    var lastNumber := if digits.Some? then Some(if digits.value == "" then 0 else DigitsValue(digits.value)) else None;
    var directiveIdx := if found.Some? && !InConditional(lines, stop) then Some(found.value as int) else None;
    var lastIdx := if directiveIdx.None? then EndifAnchor(lines, stop) else directiveIdx;
    if found.None? && d == Source then Failure(Error(RpmParseError, NoDirectiveMessage))
    else Success(DirectiveAnchor(lastNumber, lastIdx, digits == Some("")))
  }

  /** The anchor when the first directive of kind `d` is line `i`. */
  lemma LastDirectiveAt(lines: seq<string>, d: Directive, i: nat)
    requires i < |lines| && DirectiveDigits(lines[i], d).Some?
    requires forall j :: 0 <= j < i ==> DirectiveDigits(lines[j], d).None?
    ensures var digits := DirectiveDigits(lines[i], d).value;
      LastDirectiveOf(lines, d) ==
        Success(DirectiveAnchor(Some(if digits == "" then 0 else DigitsValue(digits)),
                                if !InConditional(lines, i + 1) then Some(i) else EndifAnchor(lines, i + 1),
                                digits == ""))
  {
    FirstDirectiveAt(lines, d, i);
  }

  /** The anchor when there is no directive of kind `d`. */
  lemma LastDirectiveAbsent(lines: seq<string>, d: Directive)
    requires forall j :: 0 <= j < |lines| ==> DirectiveDigits(lines[j], d).None?
    ensures LastDirectiveOf(lines, d) ==
      if d == Source then Failure(Error(RpmParseError, NoDirectiveMessage))
      else Success(DirectiveAnchor(None, EndifAnchor(lines, |lines|), false))
  {
  }

  /** The first directive of kind `d` is at `i` when it is there and nowhere before. */
  lemma {:induction false} FirstDirectiveAt(lines: seq<string>, d: Directive, i: nat)
    requires i < |lines| && DirectiveDigits(lines[i], d).Some?
    requires forall j :: 0 <= j < i ==> DirectiveDigits(lines[j], d).None?
    ensures FirstDirective(lines, d) == Some(i)
  {
    var r := FirstDirective(lines, d);
    assert r.Some?;
    assert !(r.value < i) && !(r.value > i);
  }

  /**
   * The loop of `get_last_directive`: walks the reversed list, tracking
   * "%endif" blocks, up to and including its first directive of kind `d`.
   */
  method ScanToDirective(lines: seq<string>, d: Directive) returns (found: Option<nat>, conditional: bool, lastEndifIdx: Option<int>)
    ensures found.Some? ==> found.value < |lines| && DirectiveDigits(lines[found.value], d).Some?
    ensures forall j :: 0 <= j < |lines| && (found.None? || j < found.value) ==> DirectiveDigits(lines[j], d).None?
    ensures var stop := if found.Some? then found.value + 1 else |lines|;
      stop <= |lines| && conditional == InConditional(lines, stop) && lastEndifIdx == EndifAnchor(lines, stop)
  {
    found, conditional, lastEndifIdx := None, false, None;
    var i := 0;
    while i < |lines|
      invariant 0 <= i <= |lines|
      invariant forall j :: 0 <= j < i ==> DirectiveDigits(lines[j], d).None?
      invariant conditional == InConditional(lines, i)
      invariant lastEndifIdx == EndifAnchor(lines, i)
    {
      var line := lines[i];
      conditional, lastEndifIdx := EndifStep(lines, i, conditional, lastEndifIdx);
      if DirectiveDigits(line, d).Some? {
        found := Some(i);
        return;
      }
      i := i + 1;
    }
  }

  /** The conditional tracking of `get_last_directive` for line `i`. */
  method EndifStep(lines: seq<string>, i: nat, conditional: bool, lastEndifIdx: Option<int>)
    returns (conditional': bool, lastEndifIdx': Option<int>)
    requires i < |lines| && conditional == InConditional(lines, i) && lastEndifIdx == EndifAnchor(lines, i)
    ensures conditional' == InConditional(lines, i + 1) && lastEndifIdx' == EndifAnchor(lines, i + 1)
  {
    ConditionalStep(lines, i);
    conditional', lastEndifIdx' := conditional, lastEndifIdx;
    if IsEndifLine(lines[i]) {
      conditional' := true;
      lastEndifIdx' := Some(i - 1);
    } else if IsIfLine(lines[i]) && conditional {
      conditional' := false;
    }
  }

  /**
   * `get_last_directive`: the directive the scan stopped at gives the last
   * number, and its index unless it sits in a conditional, where the
   * "%endif" anchor takes over.
   */
  method GetLastDirective(lines: seq<string>, d: Directive) returns (r: Result<DirectiveAnchor, Error>)
    ensures r == LastDirectiveOf(lines, d)
  {
    var found, conditional, lastEndifIdx := ScanToDirective(lines, d);
    if found.Some? {
      LastDirectiveAt(lines, d, found.value);
    } else {
      LastDirectiveAbsent(lines, d);
    }
    var lastNumber: Option<nat> := None;
    var lastIdx: Option<int> := None;
    var noNumbers := false;
    if found.Some? {
      var digits := DirectiveDigits(lines[found.value], d).value;
      if !conditional {
        lastIdx := Some(found.value as int);
      }
      if digits != "" {
        lastNumber := Some(DigitsValue(digits));
      } else {
        lastNumber := Some(0);
        noNumbers := true;
      }
    }
    if lastIdx.None? && lastEndifIdx.Some? {
      lastIdx := lastEndifIdx;
    }
    if lastNumber.None? && d == Source {
      return Failure(Error(RpmParseError, NoDirectiveMessage));
    }
    return Success(DirectiveAnchor(lastNumber, lastIdx, noNumbers));
  }

  /** The numbers of the numbered directives of kind `d`, in list order. */
  function DirectiveIds(lines: seq<string>, d: Directive): seq<nat>
  {
    if lines == [] then []
    else
      var init := DirectiveIds(lines[..|lines| - 1], d);
      match DirectiveDigits(lines[|lines| - 1], d)
      case Some(ds) => if ds != "" then init + [DigitsValue(ds)] else init
      case None => init
  }

  /** A number is listed exactly when some line is the directive with that number. */
  lemma {:induction false} DirectiveIdsMembership(lines: seq<string>, d: Directive, n: nat)
    ensures n in DirectiveIds(lines, d) <==>
      exists i :: 0 <= i < |lines| && DirectiveDigits(lines[i], d).Some? &&
        DirectiveDigits(lines[i], d).value != "" && DigitsValue(DirectiveDigits(lines[i], d).value) == n
    decreases |lines|
  {
    if lines != [] {
      var init := lines[..|lines| - 1];
      DirectiveIdsMembership(init, d, n);
      assert forall i :: 0 <= i < |init| ==> init[i] == lines[i];
    }
  }

  /**
   * `get_source_ids`: the numbers of the `Patch<digits>:` lines and of the
   * `Source<digits>:` lines, each in list order.
   */
  method GetSourceIds(lines: seq<string>) returns (patches: seq<nat>, sources: seq<nat>)
    ensures patches == DirectiveIds(lines, Patch)
    ensures sources == DirectiveIds(lines, Source)
  {
    patches, sources := [], [];
    var i := 0;
    while i < |lines|
      invariant 0 <= i <= |lines|
      invariant patches == DirectiveIds(lines[..i], Patch)
      invariant sources == DirectiveIds(lines[..i], Source)
    {
      var line := lines[i];
      assert lines[..i + 1][..i] == lines[..i];
      var patchCheck := DirectiveDigits(line, Patch);
      var sourceCheck := DirectiveDigits(line, Source);
      if patchCheck.Some? && patchCheck.value != "" {
        patches := patches + [DigitsValue(patchCheck.value)];
      }
      if sourceCheck.Some? && sourceCheck.value != "" {
        sources := sources + [DigitsValue(sourceCheck.value)];
      }
      i := i + 1;
    }
    assert lines[..i] == lines;
  }

  /** The number a new directive asks for: `Number(-1)` means the next one. AddFile passes its number as text. */
  datatype Request = Number(n: int) | Text(s: string)

  /**
   * `get_new_number`. The pair from `get_source_ids` is (patches, sources)
   * but is unpacked as (sources, patches), so a Patch number is checked
   * against the Source numbers and the other way round.
   */
  function GetNewNumber(lines: seq<string>, noNumbers: bool, d: Directive, lastNumber: Option<nat>, request: Request): (r: Result<string, Error>)
    ensures noNumbers ==> r == Success("")
    ensures !noNumbers && lastNumber.None? ==> r.Failure? && r.error.kind == PyTypeError
    ensures !noNumbers && lastNumber.Some? && request == Number(-1) ==> r == Success(NatToString(lastNumber.value + 1))
    ensures !noNumbers && lastNumber.Some? && request.Text? ==> r == Success(request.s)
    ensures !noNumbers && lastNumber.Some? && request.Number? && request.n != -1 ==>
      (r.Failure? <==> request.n in DirectiveIds(lines, if d == Patch then Source else Patch)) &&
      (r.Success? ==> r.value == IntToString(request.n)) &&
      (r.Failure? ==> r.error.kind == RpmParseError)
  {
    var currentSourceIds, currentPatchIds := DirectiveIds(lines, Patch), DirectiveIds(lines, Source);
    if noNumbers then Success("")
    else if lastNumber.None? then Failure(Error(PyTypeError, NoneAddMessage))
    else
      match request
      case Text(s) => Success(s)
      case Number(n) =>
        if n == -1 then Success(NatToString(lastNumber.value + 1))
        else
          var conflict := (d == Patch && n in currentPatchIds) || (d == Source && n in currentSourceIds);
          if conflict then Failure(Error(RpmParseError, DirectiveName(d) + " " + IntToString(n) + " already exists."))
          else Success(IntToString(n))
  }

  // ---------------------------------------------------------------------
  // Insertion points

  /**
   * The specification of `get_patch_idx_insert`: the closing "%endif" of
   * the conditional holding the first apply line, or that line itself; with
   * no apply line, a trailing open "%endif" if any.
   */
  function PatchInsertIndex(lines: seq<string>): Option<nat>
  {
    var bound := match FirstPatchLine(lines) case Some(p) => p case None => |lines|;
    if InConditional(lines, bound) then LastEndif(lines, bound) else FirstPatchLine(lines)
  }

  /** `get_patch_idx_insert`. */
  method GetPatchIdxInsert(lines: seq<string>) returns (r: Option<nat>)
    ensures r == PatchInsertIndex(lines)
  {
    var conditional := false;
    var startIdx: Option<nat> := None;
    var lastPatchIdx: Option<nat> := None;
    var i := 0;
    while i < |lines|
      invariant 0 <= i <= |lines|
      invariant PatchScanned(lines, i, conditional, startIdx, lastPatchIdx)
    {
      conditional, startIdx, lastPatchIdx := PatchScanStep(lines, i, conditional, startIdx, lastPatchIdx);
      i := i + 1;
    }
    r := if startIdx.Some? then startIdx else lastPatchIdx;
    if lastPatchIdx.None? {
      assert FirstPatchLine(lines).None?;
    }
    ConditionalMeansOpenEndif(lines, if lastPatchIdx.Some? then lastPatchIdx.value else |lines|);
  }

  /**
   * What the loop of `get_patch_idx_insert` knows after the first `i` lines:
   * before the first apply line it tracks the conditional and its "%endif";
   * after it, the index and the "%endif" anchor stay as they were at that line.
   */
  predicate PatchScanned(lines: seq<string>, i: nat, conditional: bool, startIdx: Option<nat>, lastPatchIdx: Option<nat>)
    requires i <= |lines|
  {
    (lastPatchIdx.None? ==>
       (forall j :: 0 <= j < i ==> GetPatchTypeByLine(lines[j]).None?) &&
       conditional == InConditional(lines, i) &&
       startIdx == (if InConditional(lines, i) then LastEndif(lines, i) else None)) &&
    (lastPatchIdx.Some? ==>
       FirstPatchLine(lines) == lastPatchIdx && lastPatchIdx.value < i &&
       startIdx == (if InConditional(lines, lastPatchIdx.value) then LastEndif(lines, lastPatchIdx.value) else None))
  }

  /** One turn of the loop of `get_patch_idx_insert`, on line `i`. */
  method PatchScanStep(lines: seq<string>, i: nat, conditional: bool, startIdx: Option<nat>, lastPatchIdx: Option<nat>)
    returns (conditional': bool, startIdx': Option<nat>, lastPatchIdx': Option<nat>)
    requires i < |lines| && PatchScanned(lines, i, conditional, startIdx, lastPatchIdx)
    ensures PatchScanned(lines, i + 1, conditional', startIdx', lastPatchIdx')
  {
    conditional', startIdx', lastPatchIdx' := conditional, startIdx, lastPatchIdx;
    var line := lines[i];
    ConditionalStep(lines, i);
    if lastPatchIdx'.None? && IsEndifLine(line) {
      conditional' := true;
      startIdx' := Some(i);
    } else if IsIfLine(line) && conditional' {
      conditional' := false;
      if lastPatchIdx'.None? {
        startIdx' := None;
      }
    }
    var patchLine := GetPatchTypeByLine(line);
    if lastPatchIdx'.None? && patchLine.Some? {
      lastPatchIdx' := Some(i);
      FirstPatchLineAt(lines, i);
      PatchLineIsNotConditional(line);
    }
  }

  /** A line that applies a patch opens or closes no conditional. */
  lemma PatchLineIsNotConditional(line: string)
    requires GetPatchTypeByLine(line).Some?
    ensures !IsEndifLine(line) && !IsIfLine(line)
  {
    assert line[0] == '%' ==> line[1] == 'p';
  }

  lemma FirstPatchLineAt(lines: seq<string>, i: nat)
    requires i < |lines| && GetPatchTypeByLine(lines[i]).Some?
    requires forall j :: 0 <= j < i ==> GetPatchTypeByLine(lines[j]).None?
    ensures FirstPatchLine(lines) == Some(i)
  {
  }

  /** `^%setup\b`. */
  predicate IsSetupLine(line: string)
  {
    StartsWith(line, "%setup") && (|line| == 6 || !IsWordChar(line[6]))
  }

  /** The index of the first "%setup" line. */
  function FirstSetupLine(lines: seq<string>): (r: Option<nat>)
    ensures r.None? <==> forall i :: 0 <= i < |lines| ==> !IsSetupLine(lines[i])
    ensures r.Some? ==> r.value < |lines| && IsSetupLine(lines[r.value]) &&
                        forall j :: 0 <= j < r.value ==> !IsSetupLine(lines[j])
  {
    if lines == [] then None
    else if IsSetupLine(lines[0]) then Some(0)
    else
      match FirstSetupLine(lines[1..])
      case None => None
      case Some(k) => Some(k + 1)
  }

  /** `get_setup_line`. */
  method GetSetupLine(lines: seq<string>) returns (r: Option<nat>)
    ensures r == FirstSetupLine(lines)
  {
    var i := 0;
    while i < |lines|
      invariant 0 <= i <= |lines|
      invariant forall j :: 0 <= j < i ==> !IsSetupLine(lines[j])
    {
      if IsSetupLine(lines[i]) {
        return Some(i);
      }
      i := i + 1;
    }
    return None;
  }

  // ---------------------------------------------------------------------
  // Editing

  /** The specification of `add_patch_line` on the reversed list. */
  function AddPatchLineSpec(lines: seq<string>, sourceName: string, patchType: Option<PatchType>, newNumber: string): Result<seq<string>, Error>
  {
    if patchType == Some(IncFile) then Success(lines)
    else
      match PatchInsertIndex(lines)
      case Some(idx) =>
        if patchType == Some(Autosetup) then Success(lines)
        else
          (match GeneratePatchLine(PatchStem(sourceName), newNumber, patchType)
           case Failure(e) => Failure(e)
           case Success(patchLine) => Success(PyInsert(lines, idx, patchLine)))
      case None =>
        if patchType == Some(Autosetup) then Success(lines)
        else
          match FirstSetupLine(lines)
          case Some(s) => Success(PyInsert(lines, s, GeneratePatchLine(PatchStem(sourceName), newNumber, Some(PSpace)).value))
          case None => Failure(Error(RpmParseError, NoApplyLineMessage))
  }

  /** `add_patch_line`: inserts the apply line into the (reversed) list in place. */
  method AddPatchLine(spec: LineList, sourceName: string, patchType: Option<PatchType>, newNumber: string) returns (err: Option<Error>)
    modifies spec
    ensures AddPatchLineSpec(old(spec.lines), sourceName, patchType, newNumber).Success? ==>
      err.None? && spec.lines == AddPatchLineSpec(old(spec.lines), sourceName, patchType, newNumber).value
    ensures AddPatchLineSpec(old(spec.lines), sourceName, patchType, newNumber).Failure? ==>
      err == Some(AddPatchLineSpec(old(spec.lines), sourceName, patchType, newNumber).error) && spec.lines == old(spec.lines)
  {
    if patchType != Some(IncFile) {
      var insertIdx := GetPatchIdxInsert(spec.lines);
      if insertIdx.Some? {
        if patchType != Some(Autosetup) {
          var patchLine := GeneratePatchLine(PatchStem(sourceName), newNumber, patchType);
          if patchLine.Failure? {
            return Some(patchLine.error);
          }
          spec.Insert(insertIdx.value, patchLine.value);
        }
      } else {
        if patchType != Some(Autosetup) {
          insertIdx := GetSetupLine(spec.lines);
          if insertIdx.Some? {
            var pt := Some(PSpace);
            spec.Insert(insertIdx.value, GeneratePatchLine(PatchStem(sourceName), newNumber, pt).value);
          } else {
            return Some(Error(RpmParseError, NoApplyLineMessage));
          }
        }
      }
    }
    return None;
  }

  /** The list an `add_new_source` call leaves behind, and the error it raised, if any. */
  datatype SourceEdit = SourceEdit(lines: seq<string>, error: Option<Error>)

  /**
   * The last steps of `add_new_source` on the reversed list: the directive
   * line goes in at the anchor, then for a patch the apply line, and the
   * list is reversed back.
   */
  function InsertDirective(rev: seq<string>, lastIdx: Option<int>, d: Directive, newNumber: string,
                           sourceName: string, patchType: Option<PatchType>): SourceEdit
  {
    match lastIdx
    case None => SourceEdit(rev, Some(Error(PyTypeError, NoneIndexMessage)))
    case Some(idx) =>
      var withDirective := PyInsert(rev, idx, DirectiveLine(d, newNumber, sourceName));
      if d == Patch && patchType != Some(IncFile) then
        (match AddPatchLineSpec(withDirective, sourceName, patchType, newNumber)
         case Failure(e) => SourceEdit(withDirective, Some(e))
         case Success(edited) => SourceEdit(Rev(edited), None))
      else SourceEdit(Rev(withDirective), None)
  }

  /** The specification of `add_new_source`, on the file's lines in file order. */
  function AddNewSourceSpec(file: seq<string>, sourceName: string, d: Directive, packageName: string,
                            patchFile: bool, request: Request): SourceEdit
  {
    var rev := Rev(file);
    match LastDirectiveOf(rev, d)
    case Failure(e) => SourceEdit(rev, Some(e))
    case Success(anchor) =>
      match GetNewNumber(rev, anchor.noNumbers, d, anchor.lastNumber, request)
      case Failure(e) => SourceEdit(rev, Some(e))
      case Success(newNumber) =>
        InsertDirective(rev, anchor.lastIdx, d, newNumber, sourceName, GetPatchType(rev, packageName, patchFile))
  }

  /**
   * `add_new_source`: reverses the list in place, inserts the directive (and
   * for a patch its apply line), and reverses back.
   */
  method AddNewSource(spec: LineList, sourceName: string, d: Directive, packageName: string,
                      patchFile: bool, request: Request) returns (err: Option<Error>)
    modifies spec
    ensures var edit := AddNewSourceSpec(old(spec.lines), sourceName, d, packageName, patchFile, request);
      spec.lines == edit.lines && err == edit.error
  {
    ghost var file := spec.lines;
    spec.Reverse();
    var anchor := GetLastDirective(spec.lines, d);
    if anchor.Failure? {
      return Some(anchor.error);
    }
    var patchType := GetPatchType(spec.lines, packageName, patchFile);
    var newNumber := GetNewNumber(spec.lines, anchor.value.noNumbers, d, anchor.value.lastNumber, request);
    if newNumber.Failure? {
      return Some(newNumber.error);
    }
    if anchor.value.lastIdx.None? {
      return Some(Error(PyTypeError, NoneIndexMessage));
    }
    spec.Insert(anchor.value.lastIdx.value, DirectiveLine(d, newNumber.value, sourceName));
    if d == Patch && patchType != Some(IncFile) {
      err := AddPatchLine(spec, sourceName, patchType, newNumber.value);
      if err.Some? {
        return;
      }
    }
    spec.Reverse();
    return None;
  }

  // ---------------------------------------------------------------------
  // Properties of add_new_source

  /** The anchor index a successful scan yields lies in the list or one before it. */
  lemma AnchorInRange(lines: seq<string>, d: Directive)
    requires LastDirectiveOf(lines, d).Success? && LastDirectiveOf(lines, d).value.lastIdx.Some?
    ensures -1 <= LastDirectiveOf(lines, d).value.lastIdx.value < |lines|
  {
    var found := FirstDirective(lines, d);
    var stop := if found.Some? then found.value + 1 else |lines|;
    assert LastEndif(lines, stop).Some? ==> LastEndif(lines, stop).value < |lines|;
  }

  /** `result` is `file` with `line` inserted once and possibly one of `extra` inserted after that. */
  ghost predicate AddsLine(file: seq<string>, result: seq<string>, line: string, extra: set<string>)
  {
    exists mid :: InsertedOnce(file, mid, line) &&
      (result == mid || exists applyLine :: applyLine in extra && InsertedOnce(mid, result, applyLine))
  }

  /**
   * The apply lines `add_patch_line` may write for a patch: the one in the
   * package's own style, or the "%patch -P N" form used after "%setup".
   */
  function ApplyLines(sourceName: string, patchType: Option<PatchType>, newNumber: string): (r: set<string>)
    ensures GeneratePatchLine(PatchStem(sourceName), newNumber, Some(PSpace)).value in r
    ensures patchType.Some? && IsLineStyle(patchType.value) ==> GeneratePatchLine(PatchStem(sourceName), newNumber, patchType).value in r
    ensures |r| <= 2
  {
    var spaced := GeneratePatchLine(PatchStem(sourceName), newNumber, Some(PSpace)).value;
    if patchType.Some? && IsLineStyle(patchType.value)
    then {spaced, GeneratePatchLine(PatchStem(sourceName), newNumber, patchType).value}
    else {spaced}
  }

  /** The number `add_new_source` gives the new directive, once both of its scans succeed. */
  function AssignedNumber(file: seq<string>, d: Directive, request: Request): Option<string>
  {
    var rev := Rev(file);
    match LastDirectiveOf(rev, d)
    case Failure(_) => None
    case Success(anchor) =>
      match GetNewNumber(rev, anchor.noNumbers, d, anchor.lastNumber, request)
      case Failure(_) => None
      case Success(n) => Some(n)
  }

  lemma InsertDirectivePreservesLines(file: seq<string>, lastIdx: Option<int>, d: Directive, newNumber: string,
                                      sourceName: string, patchType: Option<PatchType>)
    requires InsertDirective(Rev(file), lastIdx, d, newNumber, sourceName, patchType).error.None?
    ensures AddsLine(file, InsertDirective(Rev(file), lastIdx, d, newNumber, sourceName, patchType).lines,
                     DirectiveLine(d, newNumber, sourceName), if d == Patch then ApplyLines(sourceName, patchType, newNumber) else {})
  {
    var rev := Rev(file);
    RevRev(file);
    var line := DirectiveLine(d, newNumber, sourceName);
    var j := InsertPosition(|rev|, lastIdx.value);
    var withDirective := InsertAt(rev, j, line);
    RevInsertAt(rev, j, line);
    var mid := Rev(withDirective);
    assert InsertedOnce(file, mid, line) by {
      assert mid == InsertAt(file, |file| - j, line);
    }
    var result := InsertDirective(rev, lastIdx, d, newNumber, sourceName, patchType).lines;
    if d == Patch && patchType != Some(IncFile) {
      var edited := AddPatchLineSpec(withDirective, sourceName, patchType, newNumber).value;
      PatchLineInsertedOnce(withDirective, sourceName, patchType, newNumber);
      if edited != withDirective {
        var k: nat, applyLine :| k <= |withDirective| && applyLine in ApplyLines(sourceName, patchType, newNumber) &&
          edited == InsertAt(withDirective, k, applyLine);
        RevInsertAt(withDirective, k, applyLine);
        assert InsertedOnce(mid, result, applyLine);
      }
    }
  }

  /**
   * On success `add_new_source` keeps every original line in order and adds
   * exactly one directive line, carrying the number it assigned; for a patch
   * it may add that patch's apply line, and for a source nothing else.
   */
  lemma AddNewSourcePreservesLines(file: seq<string>, sourceName: string, d: Directive, packageName: string,
                                   patchFile: bool, request: Request)
    requires AddNewSourceSpec(file, sourceName, d, packageName, patchFile, request).error.None?
    ensures AssignedNumber(file, d, request).Some?
    ensures var n := AssignedNumber(file, d, request).value;
      AddsLine(file, AddNewSourceSpec(file, sourceName, d, packageName, patchFile, request).lines,
               DirectiveLine(d, n, sourceName),
               if d == Patch then ApplyLines(sourceName, GetPatchType(Rev(file), packageName, patchFile), n) else {})
  {
    var rev := Rev(file);
    AddNewSourceSucceeded(file, sourceName, d, packageName, patchFile, request);
    var anchor := LastDirectiveOf(rev, d).value;
    var newNumber := GetNewNumber(rev, anchor.noNumbers, d, anchor.lastNumber, request).value;
    InsertDirectivePreservesLines(file, anchor.lastIdx, d, newNumber, sourceName, GetPatchType(rev, packageName, patchFile));
  }

  /** `add_patch_line` either leaves the list alone or adds one line. */
  lemma PatchLineInsertedOnce(lines: seq<string>, sourceName: string, patchType: Option<PatchType>, newNumber: string)
    requires AddPatchLineSpec(lines, sourceName, patchType, newNumber).Success?
    ensures var edited := AddPatchLineSpec(lines, sourceName, patchType, newNumber).value;
      edited == lines ||
      exists k: nat, applyLine :: k <= |lines| && applyLine in ApplyLines(sourceName, patchType, newNumber) &&
        edited == InsertAt(lines, k, applyLine)
  {
  }

  // ---------------------------------------------------------------------
  // Where add_patch_line puts the apply line, in file order

  /** No line after `a` applies a patch (`a` may be -1: no line at all does). */
  predicate NoApplyAfter(file: seq<string>, a: int)
  {
    forall j :: a < j < |file| && 0 <= j ==> GetPatchTypeByLine(file[j]).None?
  }

  /** Line `a` is the last line of the file that applies a patch. */
  predicate IsLastApply(file: seq<string>, a: int)
  {
    0 <= a < |file| && GetPatchTypeByLine(file[a]).Some? && NoApplyAfter(file, a)
  }

  /** Line `e` is the "%endif" that closes a conditional holding line `a`: the first "%endif" after it, with no "%if" between. */
  predicate ClosesConditional(file: seq<string>, a: int, e: int)
  {
    -1 <= a < e < |file| && IsEndifLine(file[e]) &&
    forall j :: a < j < e && 0 <= j ==> !IsEndifLine(file[j]) && !IsIfLine(file[j])
  }

  /** Every "%endif" after line `a` has an "%if" before it, still after `a`: line `a` is in no conditional. */
  predicate Unconditional(file: seq<string>, a: int)
  {
    forall e :: a < e < |file| && 0 <= e && IsEndifLine(file[e]) ==> exists j :: a < j < e && 0 <= j && IsIfLine(file[j])
  }

  /** Line `s` is the last "%setup" line of the file. */
  predicate IsLastSetup(file: seq<string>, s: int)
  {
    0 <= s < |file| && IsSetupLine(file[s]) && forall j :: s < j < |file| ==> !IsSetupLine(file[j])
  }

  /** The reversed scan finds, as its first apply line, the file's last one. */
  lemma FirstPatchLineOfReversed(file: seq<string>, a: int)
    requires IsLastApply(file, a) || (a == -1 && NoApplyAfter(file, -1))
    ensures FirstPatchLine(Rev(file)) == if a == -1 then None else Some(|file| - 1 - a)
  {
    var rev := Rev(file);
    var n := |file|;
    if a == -1 {
      forall i | 0 <= i < n
        ensures GetPatchTypeByLine(rev[i]).None?
      {
        assert rev[i] == file[n - 1 - i];
      }
    } else {
      forall j | 0 <= j < n - 1 - a
        ensures GetPatchTypeByLine(rev[j]).None?
      {
        assert rev[j] == file[n - 1 - j];
      }
      FirstPatchLineAt(rev, n - 1 - a);
    }
  }

  /** A line in no conditional in file order leaves the reversed scan's flag clear. */
  lemma UnconditionalOfReversed(file: seq<string>, a: int)
    requires -1 <= a < |file| && Unconditional(file, a)
    ensures !InConditional(Rev(file), |file| - 1 - a)
  {
    var rev := Rev(file);
    var n := |file|;
    var bound := n - 1 - a;
    ConditionalMeansOpenEndif(rev, bound);
    forall e | 0 <= e < bound
      ensures !OpenEndifAt(rev, e, bound)
    {
      if IsEndifLine(rev[e]) {
        var f := n - 1 - e;
        assert file[f] == rev[e];
        var j :| a < j < f && 0 <= j && IsIfLine(file[j]);
        assert rev[n - 1 - j] == file[j];
      }
    }
  }

  /** The "%endif" closing a conditional in file order is where the reversed scan inserts. */
  lemma ClosingEndifOfReversed(file: seq<string>, a: int, e: int)
    requires ClosesConditional(file, a, e)
    ensures InConditional(Rev(file), |file| - 1 - a)
    ensures LastEndif(Rev(file), |file| - 1 - a) == Some(|file| - 1 - e)
  {
    var rev := Rev(file);
    var n := |file|;
    var bound := n - 1 - a;
    var r := n - 1 - e;
    assert rev[r] == file[e];
    forall j | r < j < bound
      ensures !IsIfLine(rev[j]) && !IsEndifLine(rev[j])
    {
      assert rev[j] == file[n - 1 - j];
    }
    assert OpenEndifAt(rev, r, bound);
    ConditionalMeansOpenEndif(rev, bound);
    var last := LastEndif(rev, bound);
    assert last.Some?;
    assert !(last.value < r) && !(last.value > r);
  }

  /** With no "%setup" after line `s`, the reversed scan meets line `s` first. */
  lemma FirstSetupLineOfReversed(file: seq<string>, s: int)
    requires IsLastSetup(file, s)
    ensures FirstSetupLine(Rev(file)) == Some(|file| - 1 - s)
  {
    var rev := Rev(file);
    var n := |file|;
    assert rev[n - 1 - s] == file[s];
    forall j | 0 <= j < n - 1 - s
      ensures !IsSetupLine(rev[j])
    {
      assert rev[j] == file[n - 1 - j];
    }
    var first := FirstSetupLine(rev);
    assert first.Some?;
    assert !(first.value < n - 1 - s) && !(first.value > n - 1 - s);
  }

  /** Inserting at a reversed index, read back in file order. */
  lemma InsertReversed(file: seq<string>, idx: nat, x: string)
    requires idx < |file|
    ensures Rev(PyInsert(Rev(file), idx, x)) == InsertAt(file, |file| - idx, x)
  {
    RevInsertAt(Rev(file), idx, x);
    RevRev(file);
  }

  /** A package patched from an include file or by `%autosetup` gets no apply line. */
  lemma PatchLineSkipped(lines: seq<string>, sourceName: string, patchType: Option<PatchType>, newNumber: string)
    requires patchType == Some(IncFile) || patchType == Some(Autosetup)
    ensures AddPatchLineSpec(lines, sourceName, patchType, newNumber) == Success(lines)
  {
  }

  /** Where the insertion index is known, a line-style package gets its apply line there. */
  lemma AddPatchLineAt(lines: seq<string>, idx: nat, sourceName: string, patchType: Option<PatchType>, newNumber: string)
    requires PatchInsertIndex(lines) == Some(idx)
    requires patchType.Some? && IsLineStyle(patchType.value)
    ensures AddPatchLineSpec(lines, sourceName, patchType, newNumber)
         == Success(PyInsert(lines, idx, GeneratePatchLine(PatchStem(sourceName), newNumber, patchType).value))
  {
  }

  /** The insertion index once the scan's bound and flag are known. */
  lemma PatchInsertIndexFrom(lines: seq<string>, bound: nat)
    requires bound <= |lines|
    requires FirstPatchLine(lines) == Some(bound) || (FirstPatchLine(lines).None? && bound == |lines|)
    ensures PatchInsertIndex(lines) == if InConditional(lines, bound) then LastEndif(lines, bound) else FirstPatchLine(lines)
  {
  }

  /** The reversed scan inside a conditional: the apply line goes in at the last "%endif" before the bound. */
  lemma AddPatchLineAtEndif(file: seq<string>, bound: nat, r: nat, sourceName: string, patchType: Option<PatchType>, newNumber: string)
    requires bound <= |file| && r < |file|
    requires FirstPatchLine(Rev(file)) == Some(bound) || (FirstPatchLine(Rev(file)).None? && bound == |file|)
    requires InConditional(Rev(file), bound) && LastEndif(Rev(file), bound) == Some(r)
    requires patchType.Some? && IsLineStyle(patchType.value)
    ensures AddPatchLineSpec(Rev(file), sourceName, patchType, newNumber).Success?
    ensures Rev(AddPatchLineSpec(Rev(file), sourceName, patchType, newNumber).value)
         == InsertAt(file, |file| - r, GeneratePatchLine(PatchStem(sourceName), newNumber, patchType).value)
  {
    PatchInsertIndexFrom(Rev(file), bound);
    AddPatchLineAt(Rev(file), r, sourceName, patchType, newNumber);
    InsertReversed(file, r, GeneratePatchLine(PatchStem(sourceName), newNumber, patchType).value);
  }

  /** Outside any conditional, the apply line goes directly after the file's last apply line, in the package's style. */
  lemma PatchLineAfterLastApply(file: seq<string>, a: int, sourceName: string, patchType: Option<PatchType>, newNumber: string)
    requires IsLastApply(file, a) && Unconditional(file, a)
    requires patchType.Some? && IsLineStyle(patchType.value)
    ensures AddPatchLineSpec(Rev(file), sourceName, patchType, newNumber).Success?
    ensures Rev(AddPatchLineSpec(Rev(file), sourceName, patchType, newNumber).value)
         == InsertAt(file, a + 1, GeneratePatchLine(PatchStem(sourceName), newNumber, patchType).value)
  {
    var rev := Rev(file);
    var idx := |file| - 1 - a;
    FirstPatchLineOfReversed(file, a);
    UnconditionalOfReversed(file, a);
    PatchInsertIndexFrom(rev, idx);
    AddPatchLineAt(rev, idx, sourceName, patchType, newNumber);
    InsertReversed(file, idx, GeneratePatchLine(PatchStem(sourceName), newNumber, patchType).value);
  }

  /** When the last apply line sits in a conditional, the apply line goes directly after the "%endif" that closes it. */
  lemma PatchLineAfterClosingEndif(file: seq<string>, a: int, e: int, sourceName: string, patchType: Option<PatchType>, newNumber: string)
    requires IsLastApply(file, a) && ClosesConditional(file, a, e)
    requires patchType.Some? && IsLineStyle(patchType.value)
    ensures AddPatchLineSpec(Rev(file), sourceName, patchType, newNumber).Success?
    ensures Rev(AddPatchLineSpec(Rev(file), sourceName, patchType, newNumber).value)
         == InsertAt(file, e + 1, GeneratePatchLine(PatchStem(sourceName), newNumber, patchType).value)
  {
    FirstPatchLineOfReversed(file, a);
    ClosingEndifOfReversed(file, a, e);
    AddPatchLineAtEndif(file, |file| - 1 - a, |file| - 1 - e, sourceName, patchType, newNumber);
  }

  /**
   * With no apply line, when the file's first "%endif" has no "%if" before
   * it, the apply line goes directly after that "%endif". Only a "kernel"
   * package reaches this case: `get_patch_type` finds no line style for
   * any other package without an apply line.
   */
  lemma PatchLineAfterFirstEndif(file: seq<string>, e: int, sourceName: string, patchType: Option<PatchType>, newNumber: string)
    requires NoApplyAfter(file, -1) && ClosesConditional(file, -1, e)
    requires patchType.Some? && IsLineStyle(patchType.value)
    ensures AddPatchLineSpec(Rev(file), sourceName, patchType, newNumber).Success?
    ensures Rev(AddPatchLineSpec(Rev(file), sourceName, patchType, newNumber).value)
         == InsertAt(file, e + 1, GeneratePatchLine(PatchStem(sourceName), newNumber, patchType).value)
  {
    var n := |file|;
    FirstPatchLineOfReversed(file, -1);
    assert FirstPatchLine(Rev(file)).None?;
    ClosingEndifOfReversed(file, -1, e);
    assert InConditional(Rev(file), n) && LastEndif(Rev(file), n) == Some(n - 1 - e);
    AddPatchLineAtEndif(file, n, n - 1 - e, sourceName, patchType, newNumber);
  }

  /**
   * With no apply line and no open conditional, the apply line goes
   * directly after the last "%setup" line, always in the "%patch -P N" form.
   */
  lemma PatchLineAfterLastSetup(file: seq<string>, s: int, sourceName: string, patchType: Option<PatchType>, newNumber: string)
    requires NoApplyAfter(file, -1) && Unconditional(file, -1) && IsLastSetup(file, s)
    requires patchType != Some(IncFile) && patchType != Some(Autosetup)
    ensures AddPatchLineSpec(Rev(file), sourceName, patchType, newNumber).Success?
    ensures Rev(AddPatchLineSpec(Rev(file), sourceName, patchType, newNumber).value)
         == InsertAt(file, s + 1, GeneratePatchLine(PatchStem(sourceName), newNumber, Some(PSpace)).value)
  {
    var rev := Rev(file);
    FirstPatchLineOfReversed(file, -1);
    UnconditionalOfReversed(file, -1);
    PatchInsertIndexFrom(rev, |file|);
    FirstSetupLineOfReversed(file, s);
    InsertReversed(file, |file| - 1 - s, GeneratePatchLine(PatchStem(sourceName), newNumber, Some(PSpace)).value);
  }

  /** With no apply line, no open conditional and no "%setup", there is nowhere to apply the patch. */
  lemma PatchLineNowhere(file: seq<string>, sourceName: string, patchType: Option<PatchType>, newNumber: string)
    requires NoApplyAfter(file, -1) && Unconditional(file, -1)
    requires forall j :: 0 <= j < |file| ==> !IsSetupLine(file[j])
    requires patchType != Some(IncFile) && patchType != Some(Autosetup)
    ensures AddPatchLineSpec(Rev(file), sourceName, patchType, newNumber) == Failure(Error(RpmParseError, NoApplyLineMessage))
  {
    FirstPatchLineOfReversed(file, -1);
    UnconditionalOfReversed(file, -1);
    var rev := Rev(file);
    assert forall j :: 0 <= j < |rev| ==> rev[j] == file[|file| - 1 - j];
  }

  /** For a source, the new directive line sits just after the line the anchor designates. */
  lemma SourceLineAfterAnchor(file: seq<string>, idx: nat, newNumber: string, sourceName: string, patchType: Option<PatchType>)
    requires idx < |file|
    ensures var result := InsertDirective(Rev(file), Some(idx), Source, newNumber, sourceName, patchType).lines;
      |result| == |file| + 1 &&
      result[|file| - idx] == DirectiveLine(Source, newNumber, sourceName) &&
      result[|file| - 1 - idx] == file[|file| - 1 - idx]
  {
    var rev := Rev(file);
    RevRev(file);
    RevInsertAt(rev, idx, DirectiveLine(Source, newNumber, sourceName));
  }

  /** A successful `add_new_source` found its anchor and its number, and then inserted at the anchor. */
  lemma AddNewSourceSucceeded(file: seq<string>, sourceName: string, d: Directive, packageName: string,
                              patchFile: bool, request: Request)
    requires AddNewSourceSpec(file, sourceName, d, packageName, patchFile, request).error.None?
    ensures LastDirectiveOf(Rev(file), d).Success?
    ensures var rev := Rev(file);
      var anchor := LastDirectiveOf(rev, d).value;
      GetNewNumber(rev, anchor.noNumbers, d, anchor.lastNumber, request).Success? &&
      AddNewSourceSpec(file, sourceName, d, packageName, patchFile, request) ==
        InsertDirective(rev, anchor.lastIdx, d, GetNewNumber(rev, anchor.noNumbers, d, anchor.lastNumber, request).value,
                        sourceName, GetPatchType(rev, packageName, patchFile))
  {
  }

  /** On success, the number `add_new_source` gave the directive is the one its numbering step chose. */
  lemma AssignedNumberOnSuccess(file: seq<string>, sourceName: string, d: Directive, packageName: string,
                                patchFile: bool, request: Request)
    requires AddNewSourceSpec(file, sourceName, d, packageName, patchFile, request).error.None?
    ensures LastDirectiveOf(Rev(file), d).Success?
    ensures var rev := Rev(file);
      var anchor := LastDirectiveOf(rev, d).value;
      GetNewNumber(rev, anchor.noNumbers, d, anchor.lastNumber, request).Success? &&
      AssignedNumber(file, d, request) == Some(GetNewNumber(rev, anchor.noNumbers, d, anchor.lastNumber, request).value)
  {
    AddNewSourceSucceeded(file, sourceName, d, packageName, patchFile, request);
  }

  /**
   * When the last Source directive of the file lies outside every
   * conditional block, the new Source directive goes directly after it.
   */
  lemma SourceDirectiveFollowsLastSource(file: seq<string>, sourceName: string, packageName: string, patchFile: bool, request: Request)
    requires AddNewSourceSpec(file, sourceName, Source, packageName, patchFile, request).error.None?
    ensures FirstDirective(Rev(file), Source).Some?
    ensures forall p: nat :: FirstDirective(Rev(file), Source) == Some(p) && !InConditional(Rev(file), p + 1) ==>
      DirectiveFollowsLine(file, p, AddNewSourceSpec(file, sourceName, Source, packageName, patchFile, request).lines,
                           AssignedNumber(file, Source, request), sourceName)
  {
    AddNewSourceSucceeded(file, sourceName, Source, packageName, patchFile, request);
    forall p: nat | FirstDirective(Rev(file), Source) == Some(p) && !InConditional(Rev(file), p + 1)
      ensures DirectiveFollowsLine(file, p, AddNewSourceSpec(file, sourceName, Source, packageName, patchFile, request).lines,
                                   AssignedNumber(file, Source, request), sourceName)
    {
      SourceFollowsDirectiveAt(file, sourceName, packageName, patchFile, request, p);
    }
  }

  /** The same, for the index `p` of the first Source directive of the reversed list. */
  lemma SourceFollowsDirectiveAt(file: seq<string>, sourceName: string, packageName: string, patchFile: bool,
                                 request: Request, p: nat)
    requires AddNewSourceSpec(file, sourceName, Source, packageName, patchFile, request).error.None?
    requires FirstDirective(Rev(file), Source) == Some(p)
    ensures !InConditional(Rev(file), p + 1) ==>
      DirectiveFollowsLine(file, p, AddNewSourceSpec(file, sourceName, Source, packageName, patchFile, request).lines,
                           AssignedNumber(file, Source, request), sourceName)
  {
    var rev := Rev(file);
    AddNewSourceSucceeded(file, sourceName, Source, packageName, patchFile, request);
    var anchor := LastDirectiveOf(rev, Source).value;
    if !InConditional(rev, p + 1) {
      var newNumber := GetNewNumber(rev, anchor.noNumbers, Source, anchor.lastNumber, request).value;
      AssignedNumberOnSuccess(file, sourceName, Source, packageName, patchFile, request);
      LastDirectiveAt(rev, Source, p);
      var result := AddNewSourceSpec(file, sourceName, Source, packageName, patchFile, request).lines;
      var number := AssignedNumber(file, Source, request);
      SourceAfterAnchorLine(file, p, newNumber, sourceName, GetPatchType(rev, packageName, patchFile), result, number);
    }
  }

  /**
   * `result` is `file` with one Source directive, numbered `number`, inserted
   * directly after the line `p` places from the end of the file.
   */
  predicate DirectiveFollowsLine(file: seq<string>, p: nat, result: seq<string>, number: Option<string>, sourceName: string)
  {
    p < |file| && |result| == |file| + 1 && result[|file| - 1 - p] == file[|file| - 1 - p] &&
    number.Some? && result[|file| - p] == DirectiveLine(Source, number.value, sourceName)
  }

  /** `SourceLineAfterAnchor`, restated for a result and a number already known to be that insertion and its number. */
  lemma SourceAfterAnchorLine(file: seq<string>, p: nat, newNumber: string, sourceName: string, patchType: Option<PatchType>,
                              result: seq<string>, number: Option<string>)
    requires p < |file| && number == Some(newNumber)
    requires result == InsertDirective(Rev(file), Some(p), Source, newNumber, sourceName, patchType).lines
    ensures DirectiveFollowsLine(file, p, result, number, sourceName)
  {
    SourceLineAfterAnchor(file, p, newNumber, sourceName, patchType);
  }

  /** Element `i` of the reversed sequence, named for the callers whose context is too large for `Rev`'s own quantifier. */
  lemma RevAt<T>(s: seq<T>, i: nat)
    requires i < |s|
    ensures Rev(s)[i] == s[|s| - 1 - i]
  {
  }

  /** The first element of a reversed sequence with a property is the last such element of the sequence. */
  lemma FirstOfRev<T>(s: seq<T>, p: nat, isHit: T -> bool)
    requires p < |s| && isHit(Rev(s)[p])
    requires forall i :: 0 <= i < p ==> !isHit(Rev(s)[i])
    ensures isHit(s[|s| - 1 - p])
    ensures forall j :: |s| - 1 - p < j < |s| ==> !isHit(s[j])
  {
    forall j | |s| - 1 - p < j < |s|
      ensures !isHit(s[j])
    {
      assert Rev(s)[|s| - 1 - j] == s[j];
    }
  }

  /** The first directive of the reversed list is the last one of the file. */
  lemma {:induction false} FirstOfReversedIsLastOfFile(file: seq<string>, d: Directive)
    requires FirstDirective(Rev(file), d).Some?
    ensures var k := |file| - 1 - FirstDirective(Rev(file), d).value;
      0 <= k < |file| && DirectiveDigits(file[k], d).Some? &&
      forall j :: k < j < |file| ==> DirectiveDigits(file[j], d).None?
  {
    var p := FirstDirective(Rev(file), d).value;
    FirstOfRev(file, p, line => DirectiveDigits(line, d).Some?);
  }

  /**
   * The automatic number is the number of the directive that is last in
   * file order, plus one, and not the largest number in use; unnumbered
   * directives give an unnumbered one.
   */
  lemma {:induction false} AutoNumberFollowsLastDirective(file: seq<string>, d: Directive)
    requires FirstDirective(Rev(file), d).Some?
    ensures var k := |file| - 1 - FirstDirective(Rev(file), d).value;
      0 <= k < |file| && DirectiveDigits(file[k], d).Some? &&
      var digits := DirectiveDigits(file[k], d).value;
      AssignedNumber(file, d, Number(-1)) == Some(if digits == "" then "" else NatToString(DigitsValue(digits) + 1))
  {
    var rev := Rev(file);
    var p := FirstDirective(rev, d).value;
    FirstOfReversedIsLastOfFile(file, d);
    RevAt(file, p);
    var digits := DirectiveDigits(rev[p], d).value;
    AutoNumberFollowsFirstDirective(rev, d);
    AssignedNumberOf(file, d, Number(-1), if digits == "" then "" else NatToString(DigitsValue(digits) + 1));
  }

  /** `AssignedNumber` is the number the numbering step gives on the reversed list. */
  lemma AssignedNumberOf(file: seq<string>, d: Directive, request: Request, n: string)
    requires LastDirectiveOf(Rev(file), d).Success?
    requires var a := LastDirectiveOf(Rev(file), d).value;
      GetNewNumber(Rev(file), a.noNumbers, d, a.lastNumber, request) == Success(n)
    ensures AssignedNumber(file, d, request) == Some(n)
  {
  }

  /** The same, on the list as the scan sees it: the first directive found, plus one. */
  lemma AutoNumberFollowsFirstDirective(lines: seq<string>, d: Directive)
    requires FirstDirective(lines, d).Some?
    ensures LastDirectiveOf(lines, d).Success?
    ensures var digits := DirectiveDigits(lines[FirstDirective(lines, d).value], d).value;
      var a := LastDirectiveOf(lines, d).value;
      GetNewNumber(lines, a.noNumbers, d, a.lastNumber, Number(-1)) ==
        Success(if digits == "" then "" else NatToString(DigitsValue(digits) + 1))
  {
    var i := FirstDirective(lines, d).value;
    var digits := DirectiveDigits(lines[i], d).value;
    LastDirectiveAt(lines, d, i);
    NextNumberAfter(lines, d, digits, LastDirectiveOf(lines, d).value);
  }

  /** With request -1 the numbering step gives the number after the last one, or "" for an unnumbered directive. */
  lemma NextNumberAfter(lines: seq<string>, d: Directive, digits: string, a: DirectiveAnchor)
    requires AllDigits(digits)
    requires a.noNumbers == (digits == "") && a.lastNumber == Some(if digits == "" then 0 else DigitsValue(digits))
    ensures GetNewNumber(lines, a.noNumbers, d, a.lastNumber, Number(-1))
         == Success(if digits == "" then "" else NatToString(DigitsValue(digits) + 1))
  {
  }

  /** A spec whose numbers run 0, 5, 2 gets "Source3", although Source5 exists. */
  lemma NextNumberIsNotTheMaximum()
    ensures LastDirectiveOf(Rev(["Source0: a.tar.gz", "Source5: b.tar.gz", "Source2: c.tar.gz"]), Source).Success?
    ensures var rev := Rev(["Source0: a.tar.gz", "Source5: b.tar.gz", "Source2: c.tar.gz"]);
      var a := LastDirectiveOf(rev, Source).value;
      GetNewNumber(rev, a.noNumbers, Source, a.lastNumber, Number(-1)) == Success("3")
  {
    var file := ["Source0: a.tar.gz", "Source5: b.tar.gz", "Source2: c.tar.gz"];
    var rev := Rev(file);
    var line := "Source2: c.tar.gz";
    assert rev[0] == line;
    assert line == DirectiveLine(Source, "2", "c.tar.gz");
    DirectiveLineRoundTrip(Source, "2", "c.tar.gz");
    assert FirstDirective(rev, Source) == Some(0);
    assert DigitsValue("2") == 2;
    assert NatToString(3) == "3";
  }

  /** As written, asking for a Source number already taken by a Source line is accepted; only Patch lines collide. */
  lemma SourceCollisionChecksPatchNumbers(lines: seq<string>, lastNumber: nat, n: int)
    requires n != -1
    ensures GetNewNumber(lines, false, Source, Some(lastNumber), Number(n)).Failure? <==> n in DirectiveIds(lines, Patch)
  {
  }

  /** Unnumbered directives give an unnumbered new one: "Source: name". */
  lemma UnnumberedDirectiveStaysUnnumbered(lines: seq<string>, d: Directive, lastNumber: Option<nat>, request: Request, name: string)
    ensures GetNewNumber(lines, true, d, lastNumber, request) == Success("")
    ensures DirectiveLine(d, "", name) == DirectiveName(d) + ": " + name
  {
  }

  /** With no Patch directive at all, adding a patch fails: `last_number + 1` is computed on None. */
  lemma PatchWithoutPatchDirectivesFails(file: seq<string>, sourceName: string, packageName: string, patchFile: bool, request: Request)
    requires forall i :: 0 <= i < |file| ==> DirectiveDigits(file[i], Patch).None?
    ensures AddNewSourceSpec(file, sourceName, Patch, packageName, patchFile, request).error.Some?
    ensures AddNewSourceSpec(file, sourceName, Patch, packageName, patchFile, request).error.value.kind == PyTypeError
  {
    var rev := Rev(file);
    assert forall i :: 0 <= i < |rev| ==> rev[i] == file[|file| - 1 - i];
    assert FirstDirective(rev, Patch).None?;
  }
}
