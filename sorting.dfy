/**
 * Python's `sorted()` over dictionary items whose keys are all strings or
 * all numbers: strings compare by code point, lexicographically, numbers
 * (`bool` and `int` alike) by value, and since the keys of a dictionary are
 * distinct the values are never compared.
 */
module Sorting {
  import opened PyValue

  /** An item of a dictionary with a string key. */
  type Item = (string, Value)

  /** `a <= b` for Python strings. */
  predicate StrLe(a: string, b: string)
  {
    if a == [] then true
    else if b == [] then false
    else if a[0] != b[0] then a[0] < b[0]
    else StrLe(a[1..], b[1..])
  }

  lemma {:induction false} StrLeTotal(a: string, b: string)
    ensures StrLe(a, b) || StrLe(b, a)
  {
    if a != [] && b != [] && a[0] == b[0] {
      StrLeTotal(a[1..], b[1..]);
    }
  }

  lemma {:induction false} StrLeTrans(a: string, b: string, c: string)
    requires StrLe(a, b) && StrLe(b, c)
    ensures StrLe(a, c)
  {
    if a != [] && b != [] && c != [] && a[0] == b[0] && b[0] == c[0] {
      StrLeTrans(a[1..], b[1..], c[1..]);
    }
  }

  predicate SortedByKey(s: seq<Item>)
  {
    forall i, j :: 0 <= i < j < |s| ==> StrLe(s[i].0, s[j].0)
  }

  /** One item put in front of the first item with a larger key. */
  function Insert(x: Item, s: seq<Item>): (r: seq<Item>)
    ensures |r| == |s| + 1
    ensures forall y :: y in r <==> y == x || y in s
    ensures SortedByKey(s) ==> SortedByKey(r)
  {
    if s == [] then [x]
    else if StrLe(x.0, s[0].0) then
      assert SortedByKey(s) ==> SortedByKey([x] + s) by {
        if SortedByKey(s) {
          forall j | 0 < j < |s| + 1
            ensures StrLe(x.0, ([x] + s)[j].0)
          {
            if j > 1 {
              StrLeTrans(x.0, s[0].0, s[j - 1].0);
            }
          }
        }
      }
      [x] + s
    else
      var rest := Insert(x, s[1..]);
      assert SortedByKey(s) ==> SortedByKey([s[0]] + rest) by {
        if SortedByKey(s) {
          StrLeTotal(x.0, s[0].0);
          assert SortedByKey(s[1..]);
          forall y | y in rest ensures StrLe(s[0].0, y.0)
          {
            if y != x {
              var k :| 0 <= k < |s[1..]| && s[1..][k] == y;
              assert s[k + 1] == y;
            }
          }
          forall j | 0 < j < |rest| + 1
            ensures StrLe(s[0].0, ([s[0]] + rest)[j].0)
          {
            assert ([s[0]] + rest)[j] == rest[j - 1];
            assert rest[j - 1] in rest;
          }
        }
      }
      [s[0]] + rest
  }

  /** `sorted(d.items())` for a dictionary with string keys: insertion sort. */
  function SortByKey(s: seq<Item>): (r: seq<Item>)
    ensures |r| == |s| && SortedByKey(r)
    ensures forall y :: y in r <==> y in s
  {
    if s == [] then [] else Insert(s[0], SortByKey(s[1..]))
  }

  /** The keys of the items, in order. */
  function KeysOf(s: seq<Item>): (r: seq<string>)
    ensures |r| == |s| && forall i :: 0 <= i < |s| ==> r[i] == s[i].0
  {
    if s == [] then [] else [s[0].0] + KeysOf(s[1..])
  }

  /** Sorting keeps every item with its multiplicity. */
  lemma {:induction false} SortIsPermutation(s: seq<Item>)
    ensures multiset(SortByKey(s)) == multiset(s)
  {
    if s != [] {
      SortIsPermutation(s[1..]);
      InsertIsPermutation(s[0], SortByKey(s[1..]));
      assert s == [s[0]] + s[1..];
    }
  }

  lemma {:induction false} InsertIsPermutation(x: Item, s: seq<Item>)
    ensures multiset(Insert(x, s)) == multiset(s) + multiset{x}
  {
    if s != [] && !StrLe(x.0, s[0].0) {
      InsertIsPermutation(x, s[1..]);
      assert s == [s[0]] + s[1..];
    }
  }

  /** The number a `bool` or `int` key compares as: `False` is 0 and `True` is 1. */
  function NumberOf(v: Value): int
  {
    match v
    case PyBool(b) => if b then 1 else 0
    case PyInt(n) => n
    case _ => 0
  }

  predicate IsNumber(v: Value)
  {
    v.PyBool? || v.PyInt?
  }

  predicate SortedByNumber(s: seq<(Value, Value)>)
  {
    forall i, j :: 0 <= i < j < |s| ==> NumberOf(s[i].0) <= NumberOf(s[j].0)
  }

  /** One entry put in front of the first entry with a larger numeric key. */
  function InsertByNumber(x: (Value, Value), s: seq<(Value, Value)>): (r: seq<(Value, Value)>)
    ensures |r| == |s| + 1
    ensures forall y :: y in r <==> y == x || y in s
    ensures SortedByNumber(s) ==> SortedByNumber(r)
  {
    if s == [] then [x]
    else if NumberOf(x.0) <= NumberOf(s[0].0) then [x] + s
    else
      var rest := InsertByNumber(x, s[1..]);
      assert SortedByNumber(s) ==> SortedByNumber([s[0]] + rest) by {
        if SortedByNumber(s) {
          assert SortedByNumber(s[1..]);
          forall y | y in rest ensures NumberOf(s[0].0) <= NumberOf(y.0)
          {
            if y != x {
              var k :| 0 <= k < |s[1..]| && s[1..][k] == y;
              assert s[k + 1] == y;
            }
          }
          forall j | 0 < j < |rest| + 1
            ensures NumberOf(s[0].0) <= NumberOf(([s[0]] + rest)[j].0)
          {
            assert ([s[0]] + rest)[j] == rest[j - 1];
            assert rest[j - 1] in rest;
          }
        }
      }
      [s[0]] + rest
  }

  /** `sorted(d.items())` for a dictionary with numeric keys: insertion sort. */
  function SortByNumber(s: seq<(Value, Value)>): (r: seq<(Value, Value)>)
    ensures |r| == |s| && SortedByNumber(r)
    ensures forall y :: y in r <==> y in s
  {
    if s == [] then [] else InsertByNumber(s[0], SortByNumber(s[1..]))
  }

  /** Sorting by number keeps every entry with its multiplicity. */
  lemma {:induction false} SortByNumberIsPermutation(s: seq<(Value, Value)>)
    ensures multiset(SortByNumber(s)) == multiset(s)
  {
    if s != [] {
      SortByNumberIsPermutation(s[1..]);
      InsertByNumberIsPermutation(s[0], SortByNumber(s[1..]));
      assert s == [s[0]] + s[1..];
    }
  }

  lemma {:induction false} InsertByNumberIsPermutation(x: (Value, Value), s: seq<(Value, Value)>)
    ensures multiset(InsertByNumber(x, s)) == multiset(s) + multiset{x}
  {
    if s != [] && NumberOf(x.0) > NumberOf(s[0].0) {
      InsertByNumberIsPermutation(x, s[1..]);
      assert s == [s[0]] + s[1..];
    }
  }
}
