/**
 * RPM helpers (pv2/util/rpmutil.py, and the older util/rpmutil.py): package
 * file-name tests, RPM header-size arithmetic, the header-to-NEVRA split and
 * the spec-file line predicates the editor relies on.
 */
module RpmUtil {
  import opened Wrappers
  import opened Text
  import opened PyValue
  import opened Errors
  import Generic

  type Byte = x: int | 0 <= x < 256

  /** `RPM_HEADER_MAGIC`. */
  const HeaderMagic: seq<Byte> := [0xED, 0xAB, 0xEE, 0xDB]

  // ---------------------------------------------------------------------
  // File names

  /**
   * One character of a case-insensitive pattern: `p` is a lower-case ASCII
   * letter or punctuation. Python also folds U+017F (long s) onto "s".
   */
  predicate CharMatchesIgnoreCase(c: char, p: char)
  {
    c == p || ('a' <= p <= 'z' && c as int == p as int - 32) || (p == 's' && c == '\U{17F}')
  }

  predicate EndsWithIgnoreCase(s: string, suffix: string)
  {
    |suffix| <= |s| && forall i :: 0 <= i < |suffix| ==> CharMatchesIgnoreCase(s[|s| - |suffix| + i], suffix[i])
  }

  /**
   * `re.search(r'.*?<suffix>$', name, re.IGNORECASE)` for a literal suffix:
   * `$` also matches just before a final newline.
   */
  predicate SearchSuffixIgnoreCase(name: string, suffix: string)
  {
    EndsWithIgnoreCase(name, suffix) ||
    (|name| > 0 && name[|name| - 1] == '\n' && EndsWithIgnoreCase(name[..|name| - 1], suffix))
  }

  /** `is_rpm(file_name)` without the magic check: the name ends ".rpm", in any case. */
  predicate IsRpmName(name: string)
  {
    SearchSuffixIgnoreCase(name, ".rpm")
  }

  /** `is_rpm(file_name, magic=True)`: the name test and the first four bytes of the file. */
  function IsRpm(name: string, magic: bool, content: seq<Byte>): (r: bool)
    ensures !magic ==> (r <==> IsRpmName(name))
    ensures magic ==> (r <==> IsRpmName(name) && ReadAt(content, 0, 4) == HeaderMagic)
  {
    if magic then ReadAt(content, 0, 4) == HeaderMagic && IsRpmName(name) else IsRpmName(name)
  }

  /** `is_debug_package` (both copies). */
  function IsDebugPackage(name: string): (r: bool)
    ensures r <==> IsRpmName(name) && !SearchSuffixIgnoreCase(name, ".src.rpm") &&
                   (Contains(name, "-debuginfo") || Contains(name, "-debugsource"))
  {
    if !IsRpmName(name) then false
    else if SearchSuffixIgnoreCase(name, ".src.rpm") then false
    else Contains(name, "-debuginfo") || Contains(name, "-debugsource")
  }

  /** A source package is never a debug package, and every debug package is an RPM by name. */
  lemma DebugPackageIsBinaryRpm(name: string)
    ensures IsDebugPackage(name) ==> IsRpm(name, false, [])
    ensures SearchSuffixIgnoreCase(name, ".src.rpm") ==> !IsDebugPackage(name)
  {
  }

  // ---------------------------------------------------------------------
  // Header size

  /** `file.seek(pos); file.read(n)` on a file holding `content`: short near the end. */
  function ReadAt(content: seq<Byte>, pos: nat, n: nat): (r: seq<Byte>)
    ensures |r| <= n
    ensures pos + n <= |content| ==> r == content[pos..pos + n]
  {
    if pos >= |content| then [] else content[pos..if pos + n <= |content| then pos + n else |content|]
  }

  /** Python's `s[a:b]` for `0 <= a <= b`: clamped at the end. */
  function Slice(s: seq<Byte>, a: nat, b: nat): (r: seq<Byte>)
    requires a <= b
    ensures |r| <= b - a
  {
    if a >= |s| then [] else s[a..if b <= |s| then b else |s|]
  }

  /** The size formula: 8 + 16·il + dl, rounded up to a multiple of 8 when padded, plus 8. */
  function HeaderSize(il: int, dl: int, padding: bool): int
  {
    var size := 8 + 16 * il + dl;
    (if padding then size + (8 - size % 8) % 8 else size) + 8
  }

  /** A padded size is aligned: the smallest multiple of 8 not below the raw size, plus 8. */
  lemma PaddedHeaderSizeAligned(il: int, dl: int)
    ensures HeaderSize(il, dl, true) % 8 == 0
    ensures 0 <= HeaderSize(il, dl, true) - HeaderSize(il, dl, false) < 8
  {
  }

  /**
   * `get_rpm_hdr_size` on a file holding `content` (both copies): the magic
   * must sit at `offset`; the index-entry count and the data length are the
   * big-endian values of the 4 + 4 bytes read at `offset + 8`.
   */
  method GetRpmHdrSize(content: seq<Byte>, offset: nat, padding: bool) returns (r: Result<int, Error>)
    ensures r.Failure? <==> ReadAt(content, offset, 4) != HeaderMagic
    ensures r.Failure? ==> r.error.kind == GenericError
    ensures r.Success? ==>
      var data := ReadAt(content, offset + 8, 8);
      r.value == HeaderSize(Generic.BigEndian(Slice(data, 0, 4)), Generic.BigEndian(Slice(data, 4, 8)), padding)
  {
    var magic := ReadAt(content, offset, 4);
    if magic != HeaderMagic {
      return Failure(Error(GenericError, "RPM error: bad magic"));
    }
    var data := ReadAt(content, offset + 8, 8);
    var startLength := Generic.ConvMultibyte(Slice(data, 0, 4));
    var endLength := Generic.ConvMultibyte(Slice(data, 4, 8));
    var hdrsize := 8 + 16 * startLength + endLength;
    if padding {
      hdrsize := hdrsize + (8 - hdrsize % 8) % 8;
    }
    hdrsize := hdrsize + 8;
    return Success(hdrsize);
  }

  /** With a full header present, the two fields are 32-bit unsigned values. */
  lemma HeaderFieldsAre32Bit(content: seq<Byte>, offset: nat)
    requires offset + 16 <= |content|
    ensures var data := ReadAt(content, offset + 8, 8);
      |Slice(data, 0, 4)| == 4 && |Slice(data, 4, 8)| == 4 &&
      0 <= Generic.BigEndian(Slice(data, 0, 4)) < 0x1_0000_0000 &&
      0 <= Generic.BigEndian(Slice(data, 4, 8)) < 0x1_0000_0000
  {
    var data := ReadAt(content, offset + 8, 8);
    Generic.BigEndianBound(Slice(data, 0, 4));
    Generic.BigEndianBound(Slice(data, 4, 8));
    Generic.Pow2Of32();
  }

  // ---------------------------------------------------------------------
  // Header split (older copy)

  /** The header fields `split_rpm_by_header` reads. */
  datatype Header = Header(name: string, version: string, release: string, epoch: Option<int>, arch: string)

  /** `split_rpm_by_header` (util/rpmutil.py): a missing or zero epoch becomes ''. */
  function SplitRpmByHeader(hdr: Header): (r: (string, string, string, Value, string))
    ensures r.0 == hdr.name && r.1 == hdr.version && r.2 == hdr.release && r.4 == hdr.arch
    ensures r.3 == PyStr("") <==> hdr.epoch.None? || hdr.epoch.value == 0
    ensures r.3 != PyStr("") ==> r.3 == PyInt(hdr.epoch.value)
  {
    var epoch := if hdr.epoch.None? || hdr.epoch.value == 0 then PyStr("") else PyInt(hdr.epoch.value);
    (hdr.name, hdr.version, hdr.release, epoch, hdr.arch)
  }

  // ---------------------------------------------------------------------
  // Spec-file predicates

  /** The index of the first line starting with `tag`. */
  function FirstWithPrefix(lines: seq<string>, tag: string): (r: Option<nat>)
    ensures r.None? <==> forall i :: 0 <= i < |lines| ==> !StartsWith(lines[i], tag)
    ensures r.Some? ==> r.value < |lines| && StartsWith(lines[r.value], tag) &&
                        forall j :: 0 <= j < r.value ==> !StartsWith(lines[j], tag)
  {
    if lines == [] then None
    else if StartsWith(lines[0], tag) then Some(0)
    else
      match FirstWithPrefix(lines[1..], tag)
      case None => None
      case Some(k) => Some(k + 1)
  }

  /** The value a spec tag line carries: the last word of the first line with that tag. */
  function TagValue(lines: seq<string>, tag: string): Option<string>
  {
    match FirstWithPrefix(lines, tag)
    case None => None
    case Some(k) => Some(LastWord(lines[k]))
  }

  /**
   * `spec_evr`: for each of "Epoch:", "Version:" and "Release:", the last
   * whitespace-separated word of the first line with that prefix, or None.
   */
  method SpecEvr(lines: seq<string>) returns (epoch: Option<string>, version: Option<string>, release: Option<string>)
    ensures epoch == TagValue(lines, "Epoch:")
    ensures version == TagValue(lines, "Version:")
    ensures release == TagValue(lines, "Release:")
  {
    epoch, version, release := None, None, None;
    var i := 0;
    while i < |lines|
      invariant 0 <= i <= |lines|
      invariant epoch == TagValue(lines[..i], "Epoch:")
      invariant version == TagValue(lines[..i], "Version:")
      invariant release == TagValue(lines[..i], "Release:")
    {
      var line := lines[i];
      TagValueExtend(lines, i, "Epoch:");
      TagValueExtend(lines, i, "Version:");
      TagValueExtend(lines, i, "Release:");
      if epoch.None? && StartsWith(line, "Epoch:") {
        epoch := Some(LastWord(line));
      }
      if version.None? && StartsWith(line, "Version:") {
        version := Some(LastWord(line));
      }
      if release.None? && StartsWith(lines[i], "Release:") {
        release := Some(LastWord(lines[i]));
      }
      i := i + 1;
    }
    assert lines[..i] == lines;
  }

  lemma TagValueExtend(lines: seq<string>, i: nat, tag: string)
    requires i < |lines|
    ensures TagValue(lines[..i + 1], tag) ==
      if TagValue(lines[..i], tag).None? && StartsWith(lines[i], tag) then Some(LastWord(lines[i]))
      else TagValue(lines[..i], tag)
  {
    var a, b := lines[..i], lines[..i + 1];
    assert forall j :: 0 <= j < i ==> b[j] == a[j];
    match FirstWithPrefix(a, tag)
    case None =>
      if StartsWith(lines[i], tag) {
        assert FirstWithPrefix(b, tag) == Some(i);
      } else {
        assert FirstWithPrefix(b, tag).None?;
      }
    case Some(k) =>
      assert FirstWithPrefix(b, tag) == Some(k);
  }

  /** `^\s?<alternative>`: one optional whitespace character, then one of the words. */
  predicate StartsAfterOptionalSpace(line: string, words: seq<string>)
  {
    (exists w :: w in words && StartsWith(line, w)) ||
    (|line| > 0 && IsSpace(line[0]) && exists w :: w in words && StartsWith(line[1..], w))
  }

  /** `spec_autosetup`: some line uses %autosetup, %forgeautosetup or %autopatch. */
  predicate SpecAutosetup(lines: seq<string>)
  {
    exists i :: 0 <= i < |lines| && StartsAfterOptionalSpace(lines[i], ["%autosetup", "%forgeautosetup", "%autopatch"])
  }

  /** `spec_autochangelog`: some line uses %autochangelog. */
  predicate SpecAutochangelog(lines: seq<string>)
  {
    exists i :: 0 <= i < |lines| && StartsAfterOptionalSpace(lines[i], ["%autochangelog"])
  }

  /** `^Release:.*%autorelease` on one line: `.` does not cross a newline. */
  predicate AutoreleaseLine(line: string)
  {
    StartsWith(line, "Release:") &&
    var rest := line[8..];
    Contains(rest[..Generic.NewlineIndex(rest)], "%autorelease")
  }

  /** `spec_autorelease`: some "Release:" line uses %autorelease. */
  predicate SpecAutorelease(lines: seq<string>)
  {
    exists i :: 0 <= i < |lines| && AutoreleaseLine(lines[i])
  }

  /** `spec_line_changelog`: the line is "%changelog" once spaces, tabs and newlines are stripped from both ends. */
  predicate SpecLineChangelog(line: string)
  {
    StripChars(line, {'\n', ' ', '\t'}) == "%changelog"
  }

  predicate SpecLineVersion(line: string) { StartsWith(line, "Version:") }

  predicate SpecLineRelease(line: string) { StartsWith(line, "Release:") }

  predicate SpecLineEpoch(line: string) { StartsWith(line, "Epoch:") }

  /** `check_obsolete_patch`: some line starts "%patch" followed by a digit. */
  predicate CheckObsoletePatch(lines: seq<string>)
  {
    exists i :: 0 <= i < |lines| && StartsWith(lines[i], "%patch") && |lines[i]| > 6 && IsAsciiDigit(lines[i][6])
  }
}
