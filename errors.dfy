/**
 * The exception classes of pv2 with their fault codes, and the built-in
 * Python exceptions the modelled code raises on its unguarded paths.
 * Several classes name a fault-code constant that the constants module does
 * not define; for those `FaultCode` is `None`.
 */
module Errors {
  import opened Wrappers
  import PyValue
  import Text

  datatype Kind =
    | GenericError | ProvidedValueError | ExistsValueError | MissingValueError
    | ConfigurationError | FileNotFound | DownloadError
    | MockGenericError | MockUnexpectedError | MockInvalidConfError | MockInvalidArchError
    | MockDnfError | MockResultdirError | MockSignalReceivedError
    | GitCommitError | GitPushError | GitInitError | GitCheckoutError | GitApplyError
    | RpmOpenError | RpmSigError | RpmInfoError | RpmBuildError | RpmParseError
    | UploadError | NotAppliedError
    | PatchConfigValueError | PatchConfigTypeError | TooManyFilesError
      // built-in exceptions
    | PyException | PyTypeError | PyValueError | PyAttributeError | PyKeyError | PyOSError

  /** An exception: its class and its `str()`. */
  datatype Error = Error(kind: Kind, message: string)

  /** The direct base class of each exception class. */
  function Parent(k: Kind): (p: Option<Kind>)
    ensures p.Some? ==> Depth(p.value) < Depth(k)
  {
    match k
    case GenericError => Some(PyException)
    case MockUnexpectedError => Some(MockGenericError)
    case MockInvalidConfError => Some(MockGenericError)
    case MockInvalidArchError => Some(MockGenericError)
    case MockDnfError => Some(MockGenericError)
    case MockResultdirError => Some(MockGenericError)
    case MockSignalReceivedError => Some(MockGenericError)
    case PatchConfigValueError => Some(PyValueError)
    case PatchConfigTypeError => Some(PyTypeError)
    case TooManyFilesError => Some(PyTypeError)
    case PyException => None
    case PyTypeError => Some(PyException)
    case PyValueError => Some(PyException)
    case PyAttributeError => Some(PyException)
    case PyKeyError => Some(PyException)
    case PyOSError => Some(PyException)
    case _ => Some(GenericError)
  }

  /** The depth of a class below `Exception`. */
  function Depth(k: Kind): nat
  {
    match k
    case PyException => 0
    case GenericError | PyTypeError | PyValueError | PyAttributeError | PyKeyError | PyOSError => 1
    case MockUnexpectedError | MockInvalidConfError | MockInvalidArchError
      | MockDnfError | MockResultdirError | MockSignalReceivedError => 3
    case _ => 2
  }

  /** `issubclass(k, ancestor)`. */
  predicate IsA(k: Kind, ancestor: Kind)
    decreases Depth(k)
  {
    k == ancestor || (Parent(k).Some? && IsA(Parent(k).value, ancestor))
  }

  /** The class attribute `fault_code`, when the constant it names exists. */
  function FaultCode(k: Kind): Option<int>
  {
    match k
    case GenericError => Some(9000)
    case ProvidedValueError => Some(9001)
    case ExistsValueError => Some(9002)
    case MissingValueError => Some(9003)
    case ConfigurationError => Some(9004)
    case FileNotFound => Some(9005)
    case DownloadError => Some(9006)
    case MockGenericError => Some(9199)
    case MockUnexpectedError => Some(9198)
    case MockInvalidConfError => Some(9110)
    case MockInvalidArchError => Some(9102)
    case MockDnfError => Some(9111)
    case MockResultdirError => Some(9180)
    case MockSignalReceivedError => Some(9103)
    case GitCommitError => Some(9301)
    case GitPushError => Some(9302)
    case GitInitError => Some(9303)
    case GitCheckoutError => Some(9304)
    case RpmOpenError => Some(9400)
    case RpmSigError => Some(9401)
    case RpmInfoError => Some(9402)
    case RpmBuildError => Some(9403)
    case UploadError => Some(9500)
    case _ => None
  }

  /** `NotAppliedError(action, reason)`; its message is "<action> failed: <reason>". */
  function NotApplied(action: string, reason: string): (e: Error)
    ensures e.kind == NotAppliedError && |e.message| == |action| + 9 + |reason|
    ensures e.message[..|action|] == action && e.message[|action| + 9..] == reason
  {
    Error(NotAppliedError, action + " failed: " + reason)
  }

  /**
   * `PatchConfigValueError`, `PatchConfigTypeError` and `TooManyFilesError`
   * take an action and a reason; the message is "<action>: <reason>".
   */
  function ConfigError(k: Kind, action: string, reason: string): (e: Error)
    requires k == PatchConfigValueError || k == PatchConfigTypeError || k == TooManyFilesError
    ensures e.kind == k && e.message == action + ": " + reason
  {
    Error(k, action + ": " + reason)
  }

  /**
   * The `TypeError` Python raises when one of the configuration errors,
   * whose constructors take an action and a reason, is given one argument.
   */
  function MissingReason(className: string): (e: Error)
    ensures e.kind == PyTypeError && |e.message| >= |className| && e.message[..|className|] == className
  {
    Error(PyTypeError, className + ".__init__() missing 1 required positional argument: 'reason'")
  }

  // ---------------------------------------------------------------------
  // The text of a pv2 exception

  /**
   * `x[0]`, where Python allows it: the first item of a non-empty list or
   * tuple, the first character of a non-empty string, or the entry a dict
   * holds under a key equal to 0 (`0` itself or `False`).
   */
  function IndexZero(v: PyValue.Value): (r: Option<PyValue.Value>)
    ensures (v.PyList? || v.PyTuple?) ==> (r.Some? <==> v.items != []) && (r.Some? ==> r.value == v.items[0])
    ensures v.PyStr? ==> (r.Some? <==> v.s != "") && (r.Some? ==> r.value == PyValue.PyStr(v.s[..1]))
    ensures v.PyDict? ==> (r.Some? <==> PyValue.HasKey(v.entries, PyValue.PyInt(0)) || PyValue.HasKey(v.entries, PyValue.PyBool(false)))
    ensures !v.PyList? && !v.PyTuple? && !v.PyStr? && !v.PyDict? ==> r.None?
  {
    match v
    case PyList(items) => if items == [] then None else Some(items[0])
    case PyTuple(items) => if items == [] then None else Some(items[0])
    case PyStr(s) => if s == "" then None else Some(PyValue.PyStr(s[..1]))
    case PyDict(entries) =>
      if PyValue.HasKey(entries, PyValue.PyInt(0)) then PyValue.Get(entries, PyValue.PyInt(0))
      else PyValue.Get(entries, PyValue.PyBool(false))
    case _ => None
  }

  /**
   * `GenericError.__str__` for an exception built with `args` and holding
   * the attributes `attrs`: the first argument's "args" entry's first item
   * when the first argument is such a dict (the shape of a fault carried
   * over XML-RPC), else the first argument, else the attribute dict.
   */
  function GenericErrorStr(args: seq<PyValue.Value>, attrs: seq<(PyValue.Value, PyValue.Value)>): (r: string)
    ensures args == [] ==> r == PyValue.Repr(PyValue.PyDict(attrs))
    ensures args != [] && !args[0].PyDict? ==> r == PyValue.Str(args[0])
    ensures args != [] && args[0].PyDict? && !PyValue.HasKey(args[0].entries, PyValue.PyStr("args")) ==>
      r == PyValue.Repr(args[0])
  {
    if args == [] then PyValue.Repr(PyValue.PyDict(attrs))
    else
      var first := args[0];
      var inner := if first.PyDict? then PyValue.Get(first.entries, PyValue.PyStr("args")) else None;
      var item := if inner.Some? then IndexZero(inner.value) else None;
      if item.Some? then PyValue.Str(item.value) else PyValue.Str(first)
  }

  /** An exception raised with a message string shows that message. */
  lemma GenericErrorStrOfMessage(message: string, rest: seq<PyValue.Value>, attrs: seq<(PyValue.Value, PyValue.Value)>)
    ensures GenericErrorStr([PyValue.PyStr(message)] + rest, attrs) == message
  {
  }

  /** An exception raised with a fault dict `{'args': [message, ...]}` shows the fault's message. */
  lemma GenericErrorStrOfFault(message: string, more: seq<PyValue.Value>, extra: seq<(PyValue.Value, PyValue.Value)>,
                               rest: seq<PyValue.Value>, attrs: seq<(PyValue.Value, PyValue.Value)>)
    ensures var fault := PyValue.PyDict([(PyValue.PyStr("args"), PyValue.PyList([PyValue.PyStr(message)] + more))] + extra);
      GenericErrorStr([fault] + rest, attrs) == message
  {
    var fault := PyValue.PyDict([(PyValue.PyStr("args"), PyValue.PyList([PyValue.PyStr(message)] + more))] + extra);
    assert PyValue.Get(fault.entries, PyValue.PyStr("args")) == Some(PyValue.PyList([PyValue.PyStr(message)] + more));
  }

  /** An exception raised with no argument and no attribute shows "{}". */
  lemma GenericErrorStrOfNothing()
    ensures GenericErrorStr([], []) == "{}"
  {
    assert PyValue.Repr(PyValue.PyDict([])) == "{" + Text.Join(", ", []) + "}";
  }

  /** Every defined fault code is unique to its class. */
  lemma FaultCodesDistinct(a: Kind, b: Kind)
    requires FaultCode(a).Some? && FaultCode(b).Some? && a != b
    ensures FaultCode(a) != FaultCode(b)
  {
  }

  /** Mock error classes use the 9100-9199 band and every other defined code sits outside it. */
  lemma MockCodesInMockBand(k: Kind)
    requires FaultCode(k).Some?
    ensures IsA(k, MockGenericError) <==> 9100 <= FaultCode(k).value <= 9199
  {
    if k != MockGenericError && Depth(k) < 3 && IsA(k, MockGenericError) {
      AncestorIsShallower(Parent(k).value, MockGenericError);
    }
  }

  /** An ancestor sits no deeper than its descendant. */
  lemma {:induction false} AncestorIsShallower(k: Kind, ancestor: Kind)
    requires IsA(k, ancestor)
    ensures Depth(ancestor) <= Depth(k)
    decreases Depth(k)
  {
    if k != ancestor {
      AncestorIsShallower(Parent(k).value, ancestor);
    }
  }

  /** The editor's configuration errors derive from the built-in `ValueError` and `TypeError`, not from `GenericError`. */
  lemma ConfigValueErrorIsValueError()
    ensures IsA(PatchConfigValueError, PyValueError) && !IsA(PatchConfigValueError, GenericError)
  {
  }

  lemma ConfigTypeErrorsAreTypeErrors()
    ensures IsA(PatchConfigTypeError, PyTypeError) && !IsA(PatchConfigTypeError, GenericError)
    ensures IsA(TooManyFilesError, PyTypeError) && !IsA(TooManyFilesError, GenericError)
  {
  }
}
