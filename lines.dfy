/**
 * A spec file held in memory as a Python list of lines, and the list
 * operations the editor and the directive-numbering code apply to it in
 * place: `reverse()`, `insert()`, `pop()`, item assignment and slice
 * assignment or deletion.
 */
module Lines {

  /** The elements of `s` in reverse order. */
  function Rev<T>(s: seq<T>): (r: seq<T>)
    ensures |r| == |s|
    ensures forall i :: 0 <= i < |s| ==> r[i] == s[|s| - 1 - i]
  {
    seq(|s|, i requires 0 <= i < |s| => s[|s| - 1 - i])
  }

  lemma RevRev<T>(s: seq<T>)
    ensures Rev(Rev(s)) == s
  {
    assert forall i :: 0 <= i < |s| ==> Rev(Rev(s))[i] == s[i];
  }

  /** Sequence concatenation regrouped; called explicitly where the solver would search for it. */
  lemma Regroup<T>(a: seq<T>, b: seq<T>, c: seq<T>)
    ensures a + b + c == a + (b + c)
  {
  }

  /** `s` with `x` placed at position `j`. */
  function InsertAt<T>(s: seq<T>, j: nat, x: T): (r: seq<T>)
    requires j <= |s|
    ensures |r| == |s| + 1 && r[j] == x
    ensures forall k :: 0 <= k < j ==> r[k] == s[k]
    ensures forall k :: j < k <= |s| ==> r[k] == s[k - 1]
  {
    s[..j] + [x] + s[j..]
  }

  /** Where `list.insert(idx, x)` puts `x` in a list of length `len`: a negative index counts from the end, and both ends clamp. */
  function InsertPosition(len: nat, idx: int): (j: nat)
    ensures j <= len
    ensures 0 <= idx <= len ==> j == idx
    ensures idx < 0 && len as int + idx >= 0 ==> j as int == len as int + idx
  {
    if idx < 0 then (if idx + len < 0 then 0 else idx + len)
    else if idx > len then len
    else idx
  }

  /** `list.insert(idx, x)`. */
  function PyInsert<T>(s: seq<T>, idx: int, x: T): seq<T>
  {
    InsertAt(s, InsertPosition(|s|, idx), x)
  }

  /** Inserting into a reversed list is inserting at the mirrored position of the original. */
  lemma RevInsertAt<T>(s: seq<T>, j: nat, x: T)
    requires j <= |s|
    ensures Rev(InsertAt(s, j, x)) == InsertAt(Rev(s), |s| - j, x)
  {
    var ins := InsertAt(s, j, x);
    var rs := Rev(s);
    var a, b := Rev(ins), InsertAt(rs, |s| - j, x);
    assert |ins| == |s| + 1 && |a| == |b|;
    forall i | 0 <= i < |a|
      ensures a[i] == b[i]
    {
      var k := |s| - i;
      assert a[i] == ins[|ins| - 1 - i];
      if i < |s| - j {
        assert ins[k] == s[k - 1];
        assert b[i] == rs[i];
      } else if i > |s| - j {
        assert ins[k] == s[k];
        assert b[i] == rs[i - 1];
      }
    }
    assert a == b;
  }

  /** `orig` with exactly one element `x` added somewhere, every other element kept in order. */
  predicate InsertedOnce<T(==)>(orig: seq<T>, result: seq<T>, x: T)
  {
    exists j :: 0 <= j <= |orig| && result == InsertAt(orig, j, x)
  }

  /** A Python list object holding the lines of a file. */
  class LineList {
    var lines: seq<string>

    constructor (lines: seq<string>)
      ensures this.lines == lines
    {
      this.lines := lines;
    }

    /** `list.reverse()`. */
    method Reverse()
      modifies this
      ensures lines == Rev(old(lines))
    {
      lines := Rev(lines);
    }

    /** `list.insert(idx, x)`. */
    method Insert(idx: int, x: string)
      modifies this
      ensures lines == PyInsert(old(lines), idx, x)
    {
      lines := PyInsert(lines, idx, x);
    }

    /** `list.pop(i)`. */
    method Pop(i: nat)
      requires i < |lines|
      modifies this
      ensures lines == old(lines)[..i] + old(lines)[i + 1..]
    {
      lines := lines[..i] + lines[i + 1..];
    }

    /** `list[i] = x`. */
    method SetAt(i: nat, x: string)
      requires i < |lines|
      modifies this
      ensures lines == old(lines)[i := x]
    {
      lines := lines[i := x];
    }

    /** `list[i:j] = xs`. */
    method AssignSlice(i: nat, j: nat, xs: seq<string>)
      requires i <= j <= |lines|
      modifies this
      ensures lines == old(lines)[..i] + xs + old(lines)[j..]
    {
      lines := lines[..i] + xs + lines[j..];
    }

    /** `del list[i:j]`. */
    method DeleteSlice(i: nat, j: nat)
      requires i <= j <= |lines|
      modifies this
      ensures lines == old(lines)[..i] + old(lines)[j..]
    {
      lines := lines[..i] + lines[j..];
    }
  }
}
