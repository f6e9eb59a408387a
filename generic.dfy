/**
 * Generic helpers of pv2 (pv2/util/generic.py, and its older copy
 * util/generic.py): byte-sequence decoding, hash-type guessing, boolean
 * option rendering, string checks and the one-line-per-element file format.
 */
module Generic {
  import opened Wrappers
  import opened Text
  import opened PyValue
  import opened Errors

  /** `2 ** n`. */
  function Pow2(n: nat): (r: nat)
    ensures r >= 1
  {
    if n == 0 then 1 else 2 * Pow2(n - 1)
  }

  lemma {:induction false} Pow2Add(a: nat, b: nat)
    ensures Pow2(a + b) == Pow2(a) * Pow2(b)
    decreases a
  {
    if a > 0 {
      Pow2Add(a - 1, b);
    }
  }

  /** `x << k` on Python integers (also for negative `x`). */
  function ShiftLeft(x: int, k: nat): int
  {
    x * Pow2(k)
  }

  /** The big-endian value of a digit sequence in base 256 (Horner's rule). */
  function BigEndian(data: seq<int>): int
  {
    if data == [] then 0 else 256 * BigEndian(data[..|data| - 1]) + data[|data| - 1]
  }

  lemma ShiftByteStep(k: nat)
    ensures Pow2(8 * (k + 1)) == 256 * Pow2(8 * k)
  {
    Pow2Add(8, 8 * k);
    Pow2Of8();
  }

  lemma Pow2Of8()
    ensures Pow2(8) == 256
  {
    assert Pow2(2) == 4;
    assert Pow2(4) == 16 by { Pow2Add(2, 2); }
    Pow2Add(4, 4);
  }

  lemma Pow2Of32()
    ensures Pow2(32) == 0x1_0000_0000
  {
    Pow2Of8();
    Pow2Add(8, 8);
    Pow2Add(16, 16);
  }

  /**
   * `conv_multibyte`: sums `data[i] << 8 * (n - i - 1)` over the sequence,
   * which is the big-endian base-256 value of `data`.
   */
  method ConvMultibyte(data: seq<int>) returns (sum: int)
    ensures sum == BigEndian(data)
  {
    sum := 0;
    var num := |data|;
    var i := 0;
    while i < num
      invariant 0 <= i <= num
      invariant sum == BigEndian(data[..i]) * Pow2(8 * (num - i))
    {
      ShiftByteStep(num - i - 1);
      assert data[..i + 1][..i] == data[..i];
      calc {
        sum + ShiftLeft(data[i], 8 * (num - i - 1));
        BigEndian(data[..i]) * (256 * Pow2(8 * (num - i - 1))) + data[i] * Pow2(8 * (num - i - 1));
        (256 * BigEndian(data[..i]) + data[i]) * Pow2(8 * (num - i - 1));
        BigEndian(data[..i + 1]) * Pow2(8 * (num - (i + 1)));
      }
      sum := sum + ShiftLeft(data[i], 8 * (num - i - 1));
      i := i + 1;
    }
    assert data[..num] == data;
  }

  /** Four bytes read big-endian are below 2^32. */
  lemma {:induction false} BigEndianBound(data: seq<int>)
    requires forall i :: 0 <= i < |data| ==> 0 <= data[i] < 256
    ensures 0 <= BigEndian(data) < Pow2(8 * |data|)
    decreases |data|
  {
    if data != [] {
      var init := data[..|data| - 1];
      assert forall i :: 0 <= i < |init| ==> init[i] == data[i];
      BigEndianBound(init);
      ShiftByteStep(|init|);
    }
  }

  /** `hash_checker`: the hash algorithm a hex digest of this length comes from. */
  function HashChecker(data: string): (r: Result<string, Error>)
    ensures r.Success? <==> |data| in {128, 64, 40, 32}
    ensures |data| == 128 ==> r == Success("sha512")
    ensures |data| == 64 ==> r == Success("sha256")
    ensures |data| == 40 ==> r == Success("sha1")
    ensures |data| == 32 ==> r == Success("md5")
    ensures r.Failure? ==> r.error.kind == GenericError
  {
    if |data| == 128 then Success("sha512")
    else if |data| == 64 then Success("sha256")
    else if |data| == 40 then Success("sha1")
    else if |data| == 32 then Success("md5")
    else Failure(Error(GenericError, "Data is either invalid or is not a hash."))
  }

  /** `gen_bool_option`: "1" for a truthy value other than the string "0", otherwise "0". */
  function GenBoolOption(value: Value): (r: string)
    ensures r == "1" || r == "0"
    ensures r == "1" <==> Truthy(value) && value != PyStr("0")
  {
    if Truthy(value) && value != PyStr("0") then "1" else "0"
  }

  /**
   * `gen_bool_option` by the kind of value given: a bool gives its own
   * value, an int "1" unless it is 0, a string "1" unless it is empty or
   * "0", a container "1" unless it is empty, `None` "0" and any other
   * object "1".
   */
  lemma GenBoolOptionByKind(value: Value)
    ensures value.PyNone? ==> GenBoolOption(value) == "0"
    ensures value.PyBool? ==> GenBoolOption(value) == if value.b then "1" else "0"
    ensures value.PyInt? ==> GenBoolOption(value) == if value.n != 0 then "1" else "0"
    ensures value.PyStr? ==> GenBoolOption(value) == if value.s == "" || value.s == "0" then "0" else "1"
    ensures value.PyList? || value.PyTuple? ==> GenBoolOption(value) == if value.items == [] then "0" else "1"
    ensures value.PyDict? ==> GenBoolOption(value) == if value.entries == [] then "0" else "1"
    ensures value.PyObject? ==> GenBoolOption(value) == "1"
  {
  }

  /** `trim_non_empty_string`: rejects a non-string or blank value and returns the value itself, untrimmed. */
  function TrimNonEmptyString(key: string, value: Value): (r: Result<Value, Error>)
    ensures r.Success? <==> value.PyStr? && Strip(value.s) != ""
    ensures r.Success? ==> r.value == value
    ensures r.Failure? ==> r.error == Error(ProvidedValueError, key + " must be a non-empty string")
  {
    if !value.PyStr? || Strip(value.s) == "" then
      Failure(Error(ProvidedValueError, key + " must be a non-empty string"))
    else Success(value)
  }

  /**
   * `generate_password_hash`: refuses the weak types before hashing. The
   * digest itself is `hexdigest`, which yields `None` for a type the hash
   * library does not know.
   */
  function GeneratePasswordHash(password: string, salt: string, hashtype: string,
                                hexdigest: (string, string) -> Option<string>): (r: Result<string, Error>)
    ensures hashtype in {"sha", "sha1", "md5"} ==> r == Failure(Error(ProvidedValueError, hashtype + " is not allowed."))
    ensures r.Success? ==> hashtype !in {"sha", "sha1", "md5"} && hexdigest(hashtype, salt + password) == Some(r.value)
  {
    if hashtype in {"sha", "sha1", "md5"} then Failure(Error(ProvidedValueError, hashtype + " is not allowed."))
    else
      match hexdigest(hashtype, salt + password)
      case Some(h) => Success(h)
      case None => Failure(Error(PyValueError, "unsupported hash type " + hashtype))
  }

  /** `line_is_comment`. */
  predicate LineIsComment(line: string)
  {
    StartsWith(line, "#")
  }

  /** Text-mode reading turns "\r\n" and a lone "\r" into "\n". */
  function TranslateNewlines(s: string): (r: string)
    ensures (forall i :: 0 <= i < |s| ==> s[i] != '\r') ==> r == s
  {
    if s == [] then []
    else if s[0] == '\r' then
      if |s| > 1 && s[1] == '\n' then "\n" + TranslateNewlines(s[2..]) else "\n" + TranslateNewlines(s[1..])
    else [s[0]] + TranslateNewlines(s[1..])
  }

  /** The index of the first "\n" in `s`, or `|s|`. */
  function NewlineIndex(s: string): (k: nat)
    ensures k <= |s| && (k < |s| ==> s[k] == '\n')
    ensures forall i :: 0 <= i < k ==> s[i] != '\n'
  {
    if s == [] then 0 else if s[0] == '\n' then 0 else 1 + NewlineIndex(s[1..])
  }

  /** `readlines()` with each line's trailing "\n" stripped. */
  function ReadLines(s: string): seq<string>
    decreases |s|
  {
    if s == [] then []
    else
      var k := NewlineIndex(s);
      if k == |s| then [s] else [s[..k]] + ReadLines(s[k + 1..])
  }

  /** `read_file_to_list` on the file's content: its lines, or `FileNotFound` when there are none. */
  function ReadFileToList(content: string): (r: Result<seq<string>, Error>)
    ensures r.Failure? <==> TranslateNewlines(content) == ""
    ensures r.Failure? ==> r.error.kind == FileNotFound
    ensures r.Success? ==> forall i :: 0 <= i < |r.value| ==> NewlineIndex(r.value[i]) == |r.value[i]|
  {
    var lines := ReadLines(TranslateNewlines(content));
    ReadLinesShape(TranslateNewlines(content));
    if lines == [] then Failure(Error(FileNotFound, "File is empty, doesn't exist, or is not valid"))
    else Success(lines)
  }

  lemma {:induction false} ReadLinesShape(s: string)
    ensures ReadLines(s) == [] <==> s == []
    ensures forall i :: 0 <= i < |ReadLines(s)| ==> NewlineIndex(ReadLines(s)[i]) == |ReadLines(s)[i]|
    decreases |s|
  {
    var k := NewlineIndex(s);
    if s != [] && k < |s| {
      var tail := ReadLines(s[k + 1..]);
      ReadLinesShape(s[k + 1..]);
      NewlineFree(s[..k]);
      assert ReadLines(s) == [s[..k]] + tail;
      forall i | 0 < i < |ReadLines(s)|
        ensures NewlineIndex(ReadLines(s)[i]) == |ReadLines(s)[i]|
      {
        assert ReadLines(s)[i] == tail[i - 1];
      }
    }
  }

  lemma NewlineFree(s: string)
    requires forall i :: 0 <= i < |s| ==> s[i] != '\n'
    ensures NewlineIndex(s) == |s|
  {
    if s != [] {
      NewlineFree(s[1..]);
    }
  }

  /** `write_file_from_list`: each element followed by "\n". */
  function WriteFileFromList(data: seq<string>): (r: string)
    ensures data == [] <==> r == ""
  {
    if data == [] then "" else data[0] + "\n" + WriteFileFromList(data[1..])
  }

  /** The elements of `data` hold no line break that reading would split or translate. */
  predicate PlainLines(data: seq<string>)
  {
    forall i, j :: 0 <= i < |data| && 0 <= j < |data[i]| ==> data[i][j] != '\n' && data[i][j] != '\r'
  }

  lemma {:induction false} WrittenHasNoCarriageReturn(data: seq<string>)
    requires PlainLines(data)
    ensures forall i :: 0 <= i < |WriteFileFromList(data)| ==> WriteFileFromList(data)[i] != '\r'
    decreases |data|
  {
    if data != [] {
      WrittenHasNoCarriageReturn(data[1..]);
      var w := WriteFileFromList(data);
      assert w == data[0] + "\n" + WriteFileFromList(data[1..]);
      forall i | 0 <= i < |w|
        ensures w[i] != '\r'
      {
        if i < |data[0]| {
          assert w[i] == data[0][i];
        } else if i > |data[0]| {
          assert w[i] == WriteFileFromList(data[1..])[i - |data[0]| - 1];
        }
      }
    }
  }

  lemma {:induction false} ReadLinesOfWritten(data: seq<string>)
    requires PlainLines(data)
    ensures ReadLines(WriteFileFromList(data)) == data
    decreases |data|
  {
    if data != [] {
      var rest := WriteFileFromList(data[1..]);
      assert forall j :: 0 <= j < |data[0]| ==> data[0][j] != '\n';
      ReadLinesOfLine(data[0], rest);
      ReadLinesOfWritten(data[1..]);
    }
  }

  /** A newline-free line followed by "\n" reads back as that line, then the rest. */
  lemma ReadLinesOfLine(a: string, rest: string)
    requires forall i :: 0 <= i < |a| ==> a[i] != '\n'
    ensures ReadLines(a + "\n" + rest) == [a] + ReadLines(rest)
  {
    var w := a + "\n" + rest;
    assert w == a + ("\n" + rest);
    NewlineIndexOfPrefix(a, "\n" + rest);
    assert w[..|a|] == a;
    assert w[|a| + 1..] == rest;
  }

  lemma {:induction false} NewlineIndexOfPrefix(a: string, b: string)
    requires forall i :: 0 <= i < |a| ==> a[i] != '\n'
    requires b != [] && b[0] == '\n'
    ensures NewlineIndex(a + b) == |a|
    decreases |a|
  {
    if a != [] {
      assert (a + b)[1..] == a[1..] + b;
      NewlineIndexOfPrefix(a[1..], b);
    } else {
      assert a + b == b;
    }
  }

  /** Reading back a written non-empty list of plain lines returns the same list. */
  lemma WriteThenReadRoundTrip(data: seq<string>)
    requires data != [] && PlainLines(data)
    ensures ReadFileToList(WriteFileFromList(data)) == Success(data)
  {
    WrittenHasNoCarriageReturn(data);
    ReadLinesOfWritten(data);
  }
}
