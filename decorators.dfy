/**
 * `clean_returned_dict` (pv2/util/decorators.py): the decorator that
 * replaces `None` and empty-string values in a returned dict by defaults.
 * The wrapped call itself is left out; the model applies the cleaning to
 * the value the call returned.
 */
module Decorators {
  import opened Wrappers
  import opened PyValue

  /** `v in [None, ""]`. */
  predicate IsBlank(v: Value)
  {
    v == PyNone || v == PyStr("")
  }

  /** The decorator's default `fallback`. */
  const DefaultFallback: Value := PyStr("0")

  /** `defaults or {}`: an unset or empty `defaults` looks nothing up. */
  function DefaultsMap(defaults: Option<seq<(Value, Value)>>): seq<(Value, Value)>
  {
    if defaults.Some? then defaults.value else []
  }

  /** The dict comprehension over `result.items()`. */
  function CleanEntries(entries: seq<(Value, Value)>, defaults: seq<(Value, Value)>, fallback: Value)
    : (r: seq<(Value, Value)>)
    ensures |r| == |entries|
    ensures forall i :: 0 <= i < |entries| ==> r[i].0 == entries[i].0
    ensures forall i :: 0 <= i < |entries| && !IsBlank(entries[i].1) ==> r[i].1 == entries[i].1
    ensures forall i :: 0 <= i < |entries| && IsBlank(entries[i].1) ==> r[i].1 == GetOr(defaults, entries[i].0, fallback)
  {
    if entries == [] then []
    else
      var v := entries[0].1;
      [(entries[0].0, if IsBlank(v) then GetOr(defaults, entries[0].0, fallback) else v)]
      + CleanEntries(entries[1..], defaults, fallback)
  }

  /** The wrapper: a dict result is cleaned, anything else passes through. */
  function CleanReturned(result: Value, defaults: Option<seq<(Value, Value)>>, fallback: Value): (r: Value)
    ensures !result.PyDict? ==> r == result
    ensures result.PyDict? ==> r.PyDict? && Keys(r.entries) == Keys(result.entries)
  {
    if result.PyDict? then PyDict(CleanEntries(result.entries, DefaultsMap(defaults), fallback)) else result
  }

  /** Cleaning an already cleaned result changes nothing. */
  lemma CleanIdempotent(result: Value, defaults: Option<seq<(Value, Value)>>, fallback: Value)
    ensures CleanReturned(CleanReturned(result, defaults, fallback), defaults, fallback)
         == CleanReturned(result, defaults, fallback)
  {
    if result.PyDict? {
      var d := DefaultsMap(defaults);
      var once := CleanEntries(result.entries, d, fallback);
      var twice := CleanEntries(once, d, fallback);
      assert forall i :: 0 <= i < |once| ==> twice[i] == once[i];
    }
  }

  /** With no defaults, every blank value becomes the fallback, "0" unless another is given. */
  lemma BlankBecomesFallback(entries: seq<(Value, Value)>, i: nat)
    requires i < |entries| && IsBlank(entries[i].1)
    ensures CleanReturned(PyDict(entries), None, DefaultFallback).entries[i] == (entries[i].0, PyStr("0"))
  {
  }

  /** A dict without blank values comes back unchanged. */
  lemma CleanKeepsFilledDict(entries: seq<(Value, Value)>, defaults: Option<seq<(Value, Value)>>, fallback: Value)
    requires forall i :: 0 <= i < |entries| ==> !IsBlank(entries[i].1)
    ensures CleanReturned(PyDict(entries), defaults, fallback) == PyDict(entries)
  {
    var r := CleanEntries(entries, DefaultsMap(defaults), fallback);
    assert forall i :: 0 <= i < |entries| ==> r[i] == entries[i];
  }
}
