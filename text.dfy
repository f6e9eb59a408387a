/**
 * The operations on Python `str` values that the editor and the helpers
 * rely on, with Python's own semantics: `str.isspace()`, `strip` and its
 * relatives, `startswith`/`endswith`, `in`, `find`, `replace(old, new, 1)`,
 * `splitlines()`, `join`, and decimal conversion of `int`.
 */
module Text {

  /** `str.isspace()` for one character; `\s` in a `str` pattern and `str.split()` use the same set. */
  predicate IsSpace(c: char)
  {
    c == ' ' || ('\t' <= c <= '\r') || ('\U{1C}' <= c <= '\U{1F}') ||
    c == '\U{85}' || c == '\U{A0}' || c == '\U{1680}' ||
    ('\U{2000}' <= c <= '\U{200A}') || c == '\U{2028}' || c == '\U{2029}' ||
    c == '\U{202F}' || c == '\U{205F}' || c == '\U{3000}'
  }

  /** The characters at which `str.splitlines()` ends a line. */
  predicate IsLineBoundary(c: char)
  {
    c == '\n' || c == '\r' || c == '\U{B}' || c == '\U{C}' ||
    ('\U{1C}' <= c <= '\U{1E}') || c == '\U{85}' || c == '\U{2028}' || c == '\U{2029}'
  }

  /** `[0-9]` in a regular expression. */
  predicate IsAsciiDigit(c: char)
  {
    '0' <= c <= '9'
  }

  predicate AllDigits(s: string)
  {
    forall i :: 0 <= i < |s| ==> IsAsciiDigit(s[i])
  }

  predicate NoSpace(s: string)
  {
    forall i :: 0 <= i < |s| ==> !IsSpace(s[i])
  }

  predicate StartsWith(s: string, p: string)
  {
    p <= s
  }

  predicate EndsWith(s: string, p: string)
  {
    |p| <= |s| && s[|s| - |p|..] == p
  }

  /** `p` occurs in `s` starting at index `j`. */
  predicate OccursAt(s: string, p: string, j: nat)
  {
    j + |p| <= |s| && s[j..j + |p|] == p
  }

  /** `str.find(p, from)`: the first index at or after `from` where `p` occurs, or -1. */
  function FindFrom(s: string, p: string, from: nat): (r: int)
    requires from <= |s|
    ensures r == -1 || (from <= r && OccursAt(s, p, r))
    ensures r == -1 ==> forall j :: from <= j <= |s| ==> !OccursAt(s, p, j)
    ensures r != -1 ==> forall j :: from <= j < r ==> !OccursAt(s, p, j)
    decreases |s| - from
  {
    if from + |p| > |s| then -1
    else if s[from..from + |p|] == p then from
    else FindFrom(s, p, from + 1)
  }

  function Find(s: string, p: string): (r: int)
    ensures r == -1 || (0 <= r && OccursAt(s, p, r))
  {
    FindFrom(s, p, 0)
  }

  /** `p in s`; the empty string occurs in every string. */
  predicate Contains(s: string, p: string)
  {
    Find(s, p) != -1
  }

  lemma ContainsAt(s: string, p: string, j: nat)
    requires OccursAt(s, p, j)
    ensures Contains(s, p)
  {
  }

  /** `s.replace(pat, rep, 1)`: the first occurrence of `pat` replaced, or `s` itself. */
  function ReplaceFirst(s: string, pat: string, rep: string): (r: string)
    ensures !Contains(s, pat) ==> r == s
    ensures Contains(s, pat) ==> |r| == |s| - |pat| + |rep|
  {
    var k := Find(s, pat);
    if k == -1 then s else s[..k] + rep + s[k + |pat|..]
  }

  /** `str.lstrip()`. */
  function LStrip(s: string): (r: string)
    ensures |r| <= |s| && r == s[|s| - |r|..]
    ensures r == [] || !IsSpace(r[0])
    ensures forall i :: 0 <= i < |s| - |r| ==> IsSpace(s[i])
  {
    if |s| > 0 && IsSpace(s[0]) then LStrip(s[1..]) else s
  }

  /** `str.rstrip()`. */
  function RStrip(s: string): (r: string)
    ensures |r| <= |s| && r == s[..|r|]
    ensures r == [] || !IsSpace(r[|r| - 1])
    ensures forall i :: |r| <= i < |s| ==> IsSpace(s[i])
  {
    if |s| > 0 && IsSpace(s[|s| - 1]) then RStrip(s[..|s| - 1]) else s
  }

  /** `str.strip()`. */
  function Strip(s: string): string
  {
    RStrip(LStrip(s))
  }

  /** The leading whitespace of `s` (the part `lstrip()` removes). */
  function Indent(s: string): (r: string)
    ensures s == r + LStrip(s)
  {
    s[..|s| - |LStrip(s)|]
  }

  /** `str.lstrip(chars)`. */
  function LStripChars(s: string, chars: set<char>): (r: string)
    ensures |r| <= |s| && r == s[|s| - |r|..]
  {
    if |s| > 0 && s[0] in chars then LStripChars(s[1..], chars) else s
  }

  /** `str.rstrip(chars)`. */
  function RStripChars(s: string, chars: set<char>): (r: string)
    ensures |r| <= |s| && r == s[..|r|]
  {
    if |s| > 0 && s[|s| - 1] in chars then RStripChars(s[..|s| - 1], chars) else s
  }

  /** `str.strip(chars)`. */
  function StripChars(s: string, chars: set<char>): string
  {
    RStripChars(LStripChars(s, chars), chars)
  }

  /** The run of non-space characters at the end of `s`. */
  function TrailingWord(s: string): string
  {
    if s == [] || IsSpace(s[|s| - 1]) then "" else TrailingWord(s[..|s| - 1]) + [s[|s| - 1]]
  }

  /** `s.rstrip().split()[-1]` for a string that holds a non-space character. */
  function LastWord(s: string): string
  {
    if s != [] && IsSpace(s[|s| - 1]) then LastWord(s[..|s| - 1]) else TrailingWord(s)
  }

  lemma {:induction false} TrailingWordShape(s: string)
    ensures |TrailingWord(s)| <= |s| && TrailingWord(s) == s[|s| - |TrailingWord(s)|..]
    ensures NoSpace(TrailingWord(s))
    ensures |TrailingWord(s)| < |s| ==> IsSpace(s[|s| - 1 - |TrailingWord(s)|])
  {
    if s != [] && !IsSpace(s[|s| - 1]) {
      var init := s[..|s| - 1];
      TrailingWordShape(init);
      assert init[|init| - |TrailingWord(init)|..] + [s[|s| - 1]] == s[|s| - |TrailingWord(s)|..];
    }
  }

  lemma {:induction false} LastWordOfStripped(s: string)
    ensures LastWord(s) == TrailingWord(RStrip(s))
  {
    if s != [] && IsSpace(s[|s| - 1]) {
      LastWordOfStripped(s[..|s| - 1]);
    }
  }

  /**
   * The last word is the last whitespace-separated piece of the stripped
   * line: it holds no whitespace, ends the stripped line, and is preceded
   * there by whitespace or by nothing; it is empty only when the line is
   * all whitespace.
   */
  lemma LastWordIsLastPiece(s: string)
    ensures var t, w := RStrip(s), LastWord(s);
      NoSpace(w) && EndsWith(t, w) &&
      (|w| < |t| ==> IsSpace(t[|t| - 1 - |w|])) &&
      (w == [] <==> t == [])
  {
    LastWordOfStripped(s);
    TrailingWordShape(RStrip(s));
  }

  /** The index of the first line boundary in `s`, or `|s|`. */
  function FirstBoundary(s: string): (k: nat)
    ensures k <= |s|
    ensures k < |s| ==> IsLineBoundary(s[k])
    ensures forall i :: 0 <= i < k ==> !IsLineBoundary(s[i])
  {
    if s == [] then 0
    else if IsLineBoundary(s[0]) then 0
    else 1 + FirstBoundary(s[1..])
  }

  /** `str.splitlines()`: `\r\n` ends a line as one boundary, and a final boundary adds no empty line. */
  function SplitLines(s: string): (r: seq<string>)
    ensures r == [] <==> s == []
    ensures forall i, j :: 0 <= i < |r| && 0 <= j < |r[i]| ==> !IsLineBoundary(r[i][j])
    decreases |s|
  {
    if s == [] then []
    else
      var k := FirstBoundary(s);
      if k == |s| then [s]
      else
        var width := if s[k] == '\r' && k + 1 < |s| && s[k + 1] == '\n' then 2 else 1;
        [s[..k]] + SplitLines(s[k + width..])
  }

  /** `sep.join(parts)`. */
  function Join(sep: string, parts: seq<string>): string
  {
    if parts == [] then ""
    else if |parts| == 1 then parts[0]
    else parts[0] + sep + Join(sep, parts[1..])
  }

  /**
   * Joining with "\n" the lines of a text whose only line breaks are "\n",
   * none of them at its end, gives the text back.
   */
  lemma {:induction false} JoinSplitLines(s: string)
    requires forall i :: 0 <= i < |s| && IsLineBoundary(s[i]) ==> s[i] == '\n'
    requires s == [] || s[|s| - 1] != '\n'
    ensures Join("\n", SplitLines(s)) == s
    decreases |s|
  {
    var k := FirstBoundary(s);
    if s != [] && k < |s| {
      assert s[k] == '\n' && k < |s| - 1;
      var rest := s[k + 1..];
      assert forall i :: 0 <= i < |rest| && IsLineBoundary(rest[i]) ==> rest[i] == '\n' by {
        assert forall i :: 0 <= i < |rest| ==> rest[i] == s[k + 1 + i];
      }
      calc {
        Join("\n", SplitLines(s));
      == { SplitLinesAtNewline(s, k); }
        Join("\n", [s[..k]] + SplitLines(rest));
      == { JoinCons("\n", s[..k], SplitLines(rest)); }
        s[..k] + "\n" + Join("\n", SplitLines(rest));
      == { JoinSplitLines(rest); }
        s[..k] + "\n" + rest;
      == { assert s == s[..k] + [s[k]] + rest; }
        s;
      }
    }
  }

  /** A text whose first line break is a "\n" splits there. */
  lemma SplitLinesAtNewline(s: string, k: nat)
    requires k == FirstBoundary(s) && k < |s| && s[k] == '\n'
    ensures SplitLines(s) == [s[..k]] + SplitLines(s[k + 1..])
  {
  }

  lemma JoinCons(sep: string, a: string, tail: seq<string>)
    requires tail != []
    ensures Join(sep, [a] + tail) == a + sep + Join(sep, tail)
  {
    assert ([a] + tail)[1..] == tail;
  }

  /** The decimal value of a string of ASCII digits (`int(s)` for such a string). */
  function DigitsValue(s: string): nat
    requires AllDigits(s)
  {
    if s == [] then 0 else 10 * DigitsValue(s[..|s| - 1]) + (s[|s| - 1] as int - '0' as int)
  }

  /** `str(n)` for a natural number. */
  function NatToString(n: nat): (r: string)
    ensures |r| >= 1 && AllDigits(r) && DigitsValue(r) == n
    ensures n >= 10 ==> r[0] != '0'
  {
    if n < 10 then [('0' as int + n) as char]
    else
      var r := NatToString(n / 10) + [('0' as int + n % 10) as char];
      assert r[..|r| - 1] == NatToString(n / 10);
      r
  }

  /** `str(i)` for any integer. */
  function IntToString(i: int): string
  {
    if i < 0 then "-" + NatToString(-i) else NatToString(i)
  }

  /** ASCII lower-casing; the other characters are kept. */
  function AsciiLower(s: string): (r: string)
    ensures |r| == |s|
  {
    if s == [] then ""
    else
      var c := s[0];
      [if 'A' <= c <= 'Z' then (c as int + 32) as char else c] + AsciiLower(s[1..])
  }
}
