/**
 * The importer's lookaside bookkeeping (pv2/importer/operation.py): the
 * `.<name>.metadata` file that lists one checksum per source file, the
 * `.<name>.checksum` file, the lookaside URL templates and the module stream
 * version string. File contents are strings; opening and writing the files
 * is not modelled.
 */
module Operation {
  import opened Wrappers
  import opened Text
  import opened Errors
  import opened Generic

  /** `[^ ]*` in a regular expression: no ASCII space (other whitespace is allowed). */
  predicate NoBlank(s: string)
  {
    forall i :: 0 <= i < |s| ==> s[i] != ' '
  }

  /** The index of the first `c` in `s`, or `|s|`. */
  function IndexOfChar(s: string, c: char): (k: nat)
    ensures k <= |s| && (k < |s| ==> s[k] == c)
    ensures forall i :: 0 <= i < k ==> s[i] != c
  {
    if s == [] then 0 else if s[0] == c then 0 else 1 + IndexOfChar(s[1..], c)
  }

  /** One entry of the parsed metadata: the hash algorithm and the digest. */
  datatype FileSum = FileSum(hashtype: string, checksum: string)

  /**
   * `(?P<hashtype>[^ ]+?) \((?P<file>[^ )]+?)\) = (?P<checksum>[^ ]+?)`
   * matched against a whole stripped line: the three groups.
   */
  function TaggedMatch(s: string): Option<(string, string, string)>
  {
    var h := IndexOfChar(s, ' ');
    if h == 0 || h + 2 > |s| || s[h + 1] != '(' then None
    else
      var rest := s[h + 2..];
      var j := IndexOfChar(rest, ')');
      if j == 0 || j == |rest| || !NoBlank(rest[..j]) || !OccursAt(rest, ") = ", j) then None
      else
        var checksum := rest[j + 4..];
        if checksum == [] || !NoBlank(checksum) then None
        else Some((s[..h], rest[..j], checksum))
  }

  /** A tagged match is exactly a line of the form "<hashtype> (<file>) = <checksum>". */
  lemma TaggedMatchShape(s: string)
    requires TaggedMatch(s).Some?
    ensures var t := TaggedMatch(s).value;
            s == t.0 + " (" + t.1 + ") = " + t.2 && t.0 != [] && t.1 != [] && t.2 != []
  {
    var h := IndexOfChar(s, ' ');
    var rest := s[h + 2..];
    var j := IndexOfChar(rest, ')');
    assert rest[j..j + 4] == ") = ";
    assert rest == rest[..j] + rest[j..j + 4] + rest[j + 4..];
    assert s[h..h + 2] == " (";
    assert s == s[..h] + s[h..h + 2] + rest;
  }

  /** Every line of that form, with space-free parts and no ")" in the file name, matches with those parts. */
  lemma TaggedLineMatches(hashtype: string, file: string, checksum: string)
    requires hashtype != [] && NoBlank(hashtype)
    requires file != [] && NoBlank(file) && forall i :: 0 <= i < |file| ==> file[i] != ')'
    requires checksum != [] && NoBlank(checksum)
    ensures TaggedMatch(hashtype + " (" + file + ") = " + checksum) == Some((hashtype, file, checksum))
  {
    var rest := file + ") = " + checksum;
    var s := hashtype + " (" + rest;
    assert s == hashtype + " (" + file + ") = " + checksum;
    TaggedHead(s, hashtype, rest);
    TaggedTail(rest, file, checksum);
  }

  /** The hash type ends at the first space, which " (" follows. */
  lemma TaggedHead(s: string, hashtype: string, rest: string)
    requires s == hashtype + " (" + rest && hashtype != [] && NoBlank(hashtype)
    ensures IndexOfChar(s, ' ') == |hashtype| && s[|hashtype| + 1] == '('
    ensures s[..|hashtype|] == hashtype && s[|hashtype| + 2..] == rest
  {
    assert s[|hashtype|] == ' ';
    assert forall i :: 0 <= i < |hashtype| ==> s[i] == hashtype[i];
  }

  /** The file name ends at the first ")", which " = " and the checksum follow. */
  lemma TaggedTail(rest: string, file: string, checksum: string)
    requires rest == file + ") = " + checksum && file != [] && NoBlank(file)
    requires forall i :: 0 <= i < |file| ==> file[i] != ')'
    ensures IndexOfChar(rest, ')') == |file| && |file| < |rest|
    ensures rest[..|file|] == file && OccursAt(rest, ") = ", |file|) && rest[|file| + 4..] == checksum
  {
    assert rest[|file|] == ')';
    assert forall i :: 0 <= i < |file| ==> rest[i] == file[i];
    assert rest[|file|..|file| + 4] == ") = ";
  }

  /** The end of the run of whitespace starting at `k`. */
  function RunEnd(s: string, k: nat): (m: nat)
    requires k <= |s|
    ensures k <= m <= |s| && (m < |s| ==> !IsSpace(s[m]))
    ensures forall i :: k <= i < m ==> IsSpace(s[i])
    decreases |s| - k
  {
    if k < |s| && IsSpace(s[k]) then RunEnd(s, k + 1) else k
  }

  /**
   * `(?P<checksum>[^ ]+?)\s+(?P<file>[^ ]+?)$` can match a stripped line
   * with a checksum of length `k`. A stripped line never ends in
   * whitespace, so `\s+` takes the whole run.
   */
  predicate ClassicAt(s: string, k: nat)
  {
    1 <= k < |s| && NoBlank(s[..k]) && IsSpace(s[k]) && RunEnd(s, k) < |s| && NoBlank(s[RunEnd(s, k)..])
  }

  /** The lazy checksum group: the shortest length, at or after `k`, that lets the pattern match. */
  function ClassicFrom(s: string, k: nat): (r: Option<nat>)
    ensures r.Some? ==> k <= r.value && ClassicAt(s, r.value)
    ensures r.Some? ==> forall j :: k <= j < r.value ==> !ClassicAt(s, j)
    ensures r.None? ==> forall j :: k <= j ==> !ClassicAt(s, j)
    decreases |s| - k
  {
    if k >= |s| then None else if ClassicAt(s, k) then Some(k) else ClassicFrom(s, k + 1)
  }

  /**
   * One line of a metadata file: skipped (`None`), a file with its sum, or
   * the error `hash_checker` raises for a classic line whose checksum has an
   * unknown length. The tagged form is tried first.
   */
  function ParseLine(line: string): (r: Result<Option<(string, FileSum)>, Error>)
  {
    var s := Strip(line);
    if s == "" then Success(None)
    else match TaggedMatch(s)
      case Some(t) => Success(Some((t.1, FileSum(t.0, t.2))))
      case None =>
        match ClassicFrom(s, 1)
        case None => Success(None)
        case Some(k) =>
          var checksum := s[..k];
          match HashChecker(checksum)
          case Failure(e) => Failure(e)
          case Success(hashtype) => Success(Some((s[RunEnd(s, k)..], FileSum(hashtype, checksum))))
  }

  /** Parsing the lines in order into `fileDict`; a later line for a file replaces an earlier one. */
  function ParseFrom(lines: seq<string>, fileDict: map<string, FileSum>): (r: Result<map<string, FileSum>, Error>)
  {
    if lines == [] then Success(fileDict)
    else match ParseLine(lines[0])
      case Failure(e) => Failure(e)
      case Success(None) => ParseFrom(lines[1..], fileDict)
      case Success(Some(entry)) => ParseFrom(lines[1..], fileDict[entry.0 := entry.1])
  }

  /** The lines a text-mode file iteration yields, each without its "\n" (which `strip` removes anyway). */
  function FileLines(content: string): seq<string>
  {
    ReadLines(TranslateNewlines(content))
  }

  /** `parse_metadata_file` on the file's content. */
  method ParseMetadataFile(content: string) returns (r: Result<map<string, FileSum>, Error>)
    ensures r == ParseFrom(FileLines(content), map[])
  {
    var lines := FileLines(content);
    var fileDict: map<string, FileSum> := map[];
    var i := 0;
    assert lines[i..] == lines;
    while i < |lines|
      invariant 0 <= i <= |lines|
      invariant ParseFrom(lines, map[]) == ParseFrom(lines[i..], fileDict)
    {
      assert lines[i..][1..] == lines[i + 1..];
      var parsed := ParseLine(lines[i]);
      if parsed.Failure? {
        return Failure(parsed.error);
      }
      if parsed.value.Some? {
        fileDict := fileDict[parsed.value.value.0 := parsed.value.value.1];
      }
      i := i + 1;
    }
    assert lines[i..] == [];
    r := Success(fileDict);
  }

  /** What one parsed line does to a dictionary. */
  function ApplyLine(line: string, fileDict: map<string, FileSum>): Result<map<string, FileSum>, Error>
  {
    match ParseLine(line)
    case Failure(e) => Failure(e)
    case Success(None) => Success(fileDict)
    case Success(Some(entry)) => Success(fileDict[entry.0 := entry.1])
  }

  /** Parsing one more line applies that line to the dictionary parsed so far. */
  lemma {:induction false} ParseSnoc(lines: seq<string>, line: string, fileDict: map<string, FileSum>)
    ensures ParseFrom(lines + [line], fileDict)
         == (match ParseFrom(lines, fileDict)
             case Failure(e) => Failure(e)
             case Success(d) => ApplyLine(line, d))
    decreases |lines|
  {
    if lines == [] {
      assert [] + [line] == [line];
      assert [line][1..] == [];
    } else {
      assert (lines + [line])[1..] == lines[1..] + [line];
      match ParseLine(lines[0])
      case Failure(e) =>
      case Success(None) => ParseSnoc(lines[1..], line, fileDict);
      case Success(Some(entry)) => ParseSnoc(lines[1..], line, fileDict[entry.0 := entry.1]);
    }
  }

  /** The last line naming a file decides its entry, and a blank last line changes nothing. */
  lemma LastLineWins(lines: seq<string>, line: string)
    requires ParseFrom(lines + [line], map[]).Success?
    ensures ParseLine(line).Success? && ParseFrom(lines, map[]).Success?
    ensures ParseLine(line).value.Some? ==>
              var e := ParseLine(line).value.value;
              ParseFrom(lines + [line], map[]).value == ParseFrom(lines, map[]).value[e.0 := e.1]
    ensures Strip(line) == "" ==> ParseFrom(lines + [line], map[]) == ParseFrom(lines, map[])
  {
    ParseSnoc(lines, line, map[]);
  }

  /** `generate_metadata`'s line for one (name, checksum) item: "<sha>  <name>". */
  function MetadataLine(item: (string, string)): string
  {
    item.1 + "  " + item.0
  }

  function MetadataLines(items: seq<(string, string)>): (r: seq<string>)
    ensures |r| == |items| && forall i :: 0 <= i < |items| ==> r[i] == MetadataLine(items[i])
  {
    seq(|items|, i requires 0 <= i < |items| => MetadataLine(items[i]))
  }

  lemma {:induction false} WriteSnoc(data: seq<string>, x: string)
    ensures WriteFileFromList(data + [x]) == WriteFileFromList(data) + x + "\n"
    decreases |data|
  {
    if data == [] {
      assert [] + [x] == [x];
      assert [x][1..] == [];
    } else {
      assert (data + [x])[1..] == data[1..] + [x];
      WriteSnoc(data[1..], x);
    }
  }

  /** `generate_metadata`: one "<sha>  <name>\n" line per item, in order, i.e. the one-line-per-element file format. */
  method GenerateMetadata(items: seq<(string, string)>) returns (text: string)
    ensures text == WriteFileFromList(MetadataLines(items))
  {
    text := "";
    var i := 0;
    while i < |items|
      invariant 0 <= i <= |items|
      invariant text == WriteFileFromList(MetadataLines(items[..i]))
    {
      assert MetadataLines(items[..i + 1]) == MetadataLines(items[..i]) + [MetadataLine(items[i])];
      WriteSnoc(MetadataLines(items[..i]), MetadataLine(items[i]));
      text := text + (items[i].1 + "  " + items[i].0 + "\n");
      i := i + 1;
    }
    assert items[..i] == items;
  }

  /** An item `generate_metadata` can write so that parsing gives it back: space-free parts and a digest of known length. */
  predicate Recognisable(item: (string, string))
  {
    item.0 != [] && NoSpace(item.0) && NoSpace(item.1) && HashChecker(item.1).Success?
  }

  /** The dictionary `parse_metadata_file` should produce for the items, added in order. */
  function Expected(items: seq<(string, string)>, fileDict: map<string, FileSum>): map<string, FileSum>
    requires forall i :: 0 <= i < |items| ==> Recognisable(items[i])
  {
    if items == [] then fileDict
    else
      assert Recognisable(items[0]);
      Expected(items[1..], fileDict[items[0].0 := FileSum(HashChecker(items[0].1).value, items[0].1)])
  }

  /** A line without leading or trailing whitespace is its own `strip()`. */
  lemma StripUnchanged(s: string)
    requires s != [] && !IsSpace(s[0]) && !IsSpace(s[|s| - 1])
    ensures Strip(s) == s
  {
  }

  /** A written metadata line parses back to its item. */
  lemma ParseMetadataLine(item: (string, string))
    requires Recognisable(item)
    ensures ParseLine(MetadataLine(item)) == Success(Some((item.0, FileSum(HashChecker(item.1).value, item.1))))
  {
    ClassicLine(item.1, item.0);
  }

  /** "<sha>  <name>" with space-free parts: stripping keeps it, the tagged form fails and the classic form splits it back. */
  lemma ClassicLine(sha: string, name: string)
    requires sha != [] && NoSpace(sha) && name != [] && NoSpace(name)
    ensures var s := sha + "  " + name;
            Strip(s) == s && TaggedMatch(s).None? && ClassicFrom(s, 1) == Some(|sha|) &&
            s[..|sha|] == sha && RunEnd(s, |sha|) == |sha| + 2 && s[|sha| + 2..] == name
  {
    var s := sha + "  " + name;
    ClassicPieces(sha, name);
    StripUnchanged(s);
    ClassicNotTagged(s, sha);
    ClassicSplit(s, sha, name);
  }

  lemma ClassicNotTagged(s: string, sha: string)
    requires |sha| + 2 <= |s| && NoSpace(sha) && s[..|sha|] == sha && s[|sha|] == ' ' && s[|sha| + 1] == ' '
    ensures TaggedMatch(s).None?
  {
    assert forall i :: 0 <= i < |sha| ==> s[i] == sha[i];
    assert IndexOfChar(s, ' ') == |sha|;
  }

  lemma ClassicSplit(s: string, sha: string, name: string)
    requires sha != [] && NoSpace(sha) && name != [] && NoSpace(name)
    requires |s| == |sha| + 2 + |name| && s[..|sha|] == sha && s[|sha|] == ' ' && s[|sha| + 1] == ' '
    requires s[|sha| + 2..] == name
    ensures ClassicFrom(s, 1) == Some(|sha|) && RunEnd(s, |sha|) == |sha| + 2
  {
    assert forall i :: 0 <= i < |sha| ==> s[i] == sha[i];
    assert s[|sha| + 2] == name[0];
    assert RunEnd(s, |sha| + 2) == |sha| + 2;
    assert ClassicAt(s, |sha|);
  }

  lemma ClassicPieces(sha: string, name: string)
    ensures var s := sha + "  " + name;
            |s| == |sha| + 2 + |name| && s[..|sha|] == sha && s[|sha|] == ' ' && s[|sha| + 1] == ' ' &&
            s[|sha| + 2..] == name && (forall i :: 0 <= i < |sha| ==> s[i] == sha[i]) &&
            (name != [] ==> s[|s| - 1] == name[|name| - 1]) && (sha != [] ==> s[0] == sha[0])
  {
  }

  lemma {:induction false} ParseGeneratedLines(items: seq<(string, string)>, fileDict: map<string, FileSum>)
    requires forall i :: 0 <= i < |items| ==> Recognisable(items[i])
    ensures ParseFrom(MetadataLines(items), fileDict) == Success(Expected(items, fileDict))
    decreases |items|
  {
    if items != [] {
      ParseMetadataLine(items[0]);
      assert MetadataLines(items)[1..] == MetadataLines(items[1..]);
      ParseGeneratedLines(items[1..], fileDict[items[0].0 := FileSum(HashChecker(items[0].1).value, items[0].1)]);
    }
  }

  lemma MetadataLinesArePlain(items: seq<(string, string)>)
    requires forall i :: 0 <= i < |items| ==> Recognisable(items[i])
    ensures PlainLines(MetadataLines(items))
  {
    var lines := MetadataLines(items);
    forall i, j | 0 <= i < |lines| && 0 <= j < |lines[i]|
      ensures lines[i][j] != '\n' && lines[i][j] != '\r'
    {
      var item := items[i];
      assert Recognisable(item);
      var s := MetadataLine(item);
      assert s == item.1 + "  " + item.0;
      if j < |item.1| {
        assert s[j] == item.1[j];
        assert !IsSpace(item.1[j]);
      } else if j >= |item.1| + 2 {
        assert s[j] == item.0[j - |item.1| - 2];
        assert !IsSpace(item.0[j - |item.1| - 2]);
      }
    }
  }

  /** Parsing the text `generate_metadata` writes gives every name back with its digest and hash type. */
  lemma GenerateThenParse(items: seq<(string, string)>)
    requires forall i :: 0 <= i < |items| ==> Recognisable(items[i])
    ensures ParseFrom(FileLines(WriteFileFromList(MetadataLines(items))), map[]) == Success(Expected(items, map[]))
  {
    var lines := MetadataLines(items);
    MetadataLinesArePlain(items);
    WrittenHasNoCarriageReturn(lines);
    ReadLinesOfWritten(lines);
    ParseGeneratedLines(items, map[]);
  }

  /** A classic line whose checksum has none of the known lengths makes parsing fail. */
  lemma UnknownDigestLengthFails(sha: string, name: string)
    requires sha != [] && NoSpace(sha) && name != [] && NoSpace(name)
    requires |sha| !in {32, 40, 64, 128}
    ensures ParseLine(sha + "  " + name).Failure?
    ensures ParseLine(sha + "  " + name).error.kind == GenericError
  {
    ClassicLine(sha, name);
  }

  /** `generate_filesum`: the hash and one newline. */
  function FilesumText(srpmHash: string): (r: string)
    ensures |r| == |srpmHash| + 1 && r[..|srpmHash|] == srpmHash && r[|srpmHash|] == '\n'
  {
    srpmHash + "\n"
  }

  /** The importer reads the checksum file back with `strip()`, which returns the hash written. */
  lemma FilesumRoundTrip(srpmHash: string)
    requires srpmHash != [] && NoSpace(srpmHash)
    ensures Strip(FilesumText(srpmHash)) == srpmHash
  {
    var t := FilesumText(srpmHash);
    assert !IsSpace(t[0]);
    assert LStrip(t) == t;
    assert t[..|t| - 1] == srpmHash;
    assert RStrip(t) == RStrip(srpmHash);
  }

  /** `get_lookaside_template_path`. */
  function LookasideTemplatePath(source: string): (r: Option<string>)
    ensures r.Some? <==> source == "rocky8" || source == "rocky" || source == "centos" || source == "stream" || source == "fedora"
  {
    if source == "rocky8" then Some("https://rocky-linux-sources-staging.a1.rockylinux.org/${HASH}")
    else if source == "rocky" then Some("https://sources.build.resf.org/${HASH}")
    else if source == "centos" then Some("https://git.centos.org/sources/${PKG_NAME}/${BRANCH}/${HASH}")
    else if source == "stream" then
      Some("https://sources.stream.centos.org/sources/rpms/${PKG_NAME}/${FILENAME}/${HASH_TYPE}/${HASH}/${FILENAME}")
    else if source == "fedora" then
      Some("https://src.fedoraproject.org/repo/pkgs/${PKG_NAME}/${FILENAME}/${HASH_TYPE}/${HASH}/${FILENAME}")
    else None
  }

  /** The end of the run of ASCII digits starting at `k`. */
  function DigitRunEnd(s: string, k: nat): (m: nat)
    requires k <= |s|
    ensures k <= m <= |s| && (m < |s| ==> !IsAsciiDigit(s[m]))
    ensures forall i :: k <= i < m ==> IsAsciiDigit(s[i])
    decreases |s| - k
  {
    if k < |s| && IsAsciiDigit(s[k]) then DigitRunEnd(s, k + 1) else k
  }

  /** `rhel-([0-9]+)\.([0-9]+)\.([0-9]+)` matched at position `p`: the three digit groups. */
  function RhelVersionAt(s: string, p: nat): Option<(string, string, string)>
  {
    if !OccursAt(s, "rhel-", p) then None
    else
      var a := DigitRunEnd(s, p + 5);
      if a == p + 5 || a == |s| || s[a] != '.' then None
      else
        var b := DigitRunEnd(s, a + 1);
        if b == a + 1 || b == |s| || s[b] != '.' then None
        else
          var c := DigitRunEnd(s, b + 1);
          if c == b + 1 then None else Some((s[p + 5..a], s[a + 1..b], s[b + 1..c]))
  }

  /** `re.search`: the leftmost position at or after `p` where the pattern matches. */
  function SearchRhel(s: string, p: nat): Option<(string, string, string)>
    decreases |s| - p
  {
    if p >= |s| then None
    else if RhelVersionAt(s, p).Some? then RhelVersionAt(s, p)
    else SearchRhel(s, p + 1)
  }

  /** A one-digit group gets a leading zero. */
  function Pad2(x: string): (r: string)
    ensures |x| == 1 ==> r == "0" + x
    ensures |x| != 1 ==> r == x
  {
    if |x| == 1 then "0" + x else x
  }

  /**
   * `get_module_stream_os`: the release alone for a branch without "rhel";
   * otherwise release, minor and micro (two digits at least) and the
   * timestamp. A branch that holds "rhel" but not the version pattern makes
   * `.group` fail on `None`.
   */
  function ModuleStreamOs(release: string, sourceBranch: string, timestamp: string): (r: Result<string, Error>)
    ensures !Contains(sourceBranch, "rhel") ==> r == Success(release)
    ensures Contains(sourceBranch, "rhel") && SearchRhel(sourceBranch, 0).None? ==> r.Failure?
  {
    if !Contains(sourceBranch, "rhel") then Success(release)
    else match SearchRhel(sourceBranch, 0)
      case None => Failure(Error(PyAttributeError, "'NoneType' object has no attribute 'group'"))
      case Some(g) => Success(release + Pad2(g.1) + Pad2(g.2) + timestamp)
  }

  lemma {:induction false} DigitRunOver(s: string, k: nat, d: string)
    requires k + |d| <= |s| && s[k..k + |d|] == d && AllDigits(d)
    requires k + |d| == |s| || !IsAsciiDigit(s[k + |d|])
    ensures DigitRunEnd(s, k) == k + |d|
    decreases |d|
  {
    if d != [] {
      assert s[k] == d[0] && IsAsciiDigit(d[0]);
      assert s[k + 1..k + 1 + |d[1..]|] == d[1..];
      DigitRunOver(s, k + 1, d[1..]);
    }
  }

  /** The version pattern matches at the start of "rhel-<major>.<minor>.<micro>", with those groups. */
  lemma RhelVersionAtStart(major: string, minor: string, micro: string)
    requires major != [] && minor != [] && micro != []
    requires AllDigits(major) && AllDigits(minor) && AllDigits(micro)
    ensures RhelVersionAt("rhel-" + major + "." + minor + "." + micro, 0) == Some((major, minor, micro))
  {
    RhelPieces(major, minor, micro);
    RhelGroups("rhel-" + major + "." + minor + "." + micro, 5 + |major|, 6 + |major| + |minor|, major, minor, micro);
  }

  lemma RhelGroups(s: string, a: nat, b: nat, major: string, minor: string, micro: string)
    requires major != [] && minor != [] && micro != []
    requires AllDigits(major) && AllDigits(minor) && AllDigits(micro)
    requires a == 5 + |major| && b == a + 1 + |minor| && |s| == b + 1 + |micro| && OccursAt(s, "rhel-", 0)
    requires s[5..a] == major && s[a] == '.' && s[a + 1..b] == minor && s[b] == '.'
    requires s[b + 1..b + 1 + |micro|] == micro
    ensures RhelVersionAt(s, 0) == Some((major, minor, micro))
  {
    DigitRunOver(s, 5, major);
    DigitRunOver(s, a + 1, minor);
    DigitRunOver(s, b + 1, micro);
  }

  lemma RhelPieces(major: string, minor: string, micro: string)
    ensures var s := "rhel-" + major + "." + minor + "." + micro;
            var a := 5 + |major|;
            var b := a + 1 + |minor|;
            |s| == b + 1 + |micro| && OccursAt(s, "rhel-", 0) &&
            s[5..a] == major && s[a] == '.' && s[a + 1..b] == minor && s[b] == '.' &&
            s[b + 1..b + 1 + |micro|] == micro
  {
  }

  /** For a branch "rhel-<major>.<minor>.<micro>" the result is release, padded minor, padded micro and timestamp; the major is ignored. */
  lemma StreamOsOfRhelBranch(release: string, major: string, minor: string, micro: string, timestamp: string)
    requires major != [] && minor != [] && micro != []
    requires AllDigits(major) && AllDigits(minor) && AllDigits(micro)
    ensures ModuleStreamOs(release, "rhel-" + major + "." + minor + "." + micro, timestamp)
         == Success(release + Pad2(minor) + Pad2(micro) + timestamp)
  {
    var s := "rhel-" + major + "." + minor + "." + micro;
    RhelVersionAtStart(major, minor, micro);
    assert s[0..4] == "rhel";
    ContainsAt(s, "rhel", 0);
  }
}
