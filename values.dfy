/**
 * The Python values, exceptions and outcomes that the command framework
 * passes around: option values produced by the usage parser, class
 * attributes of command descriptors, results of associated functions.
 */
module PyValues {

  datatype Option<+T> = None | Some(value: T)

  datatype Result<+T, +E> = Success(value: T) | Failure(error: E)

  /**
   * A class object that may appear as a value (in COMMANDS, as CALLABLE):
   * whether it derives from LmiBaseCommand, what its `is_end_point()` says,
   * and its `__doc__`.
   */
  datatype ClassRef = ClassRef(name: string, isCommand: bool, isEndPoint: bool, doc: PyVal)

  /** The Python values the modelled code inspects. */
  datatype PyVal =
    | PNone
    | PBool(b: bool)
    | PInt(i: int)
    | PStr(s: string)
    | PList(items: seq<PyVal>)
    | PTuple(items: seq<PyVal>)
    | PDict(entries: seq<(PyVal, PyVal)>)
    | PFunc(name: string)                                // a function object
    | PClass(cls: ClassRef)                              // a class object
    | PInstance(path: string, properties: seq<(string, PyVal)>) // a CIM instance
    | PReturnValue(rval: PyVal)                          // an LMIReturnValue
    | PObject(name: string)                              // any other object

  /** Errors raised while binding options to the parameters of a function. */
  datatype BindError =
    | Unconvertible(token: string)                        // no token shape matched
    | Clash(token: string, previous: string, key: string)  // two tokens, one key
    | Unbound(command: string, param: string)              // parameter not in usage

  /** Exceptions raised by the modelled code or by the code it calls. */
  datatype Exc =
    | KeyError(key: string)
    | IndexError
    | TypeError
    | ValueError
    | AttributeError
    | StopIteration
    | Bind(err: BindError)
    | Other(kind: string, message: string)    // any other exception

  /** A call into code the model does not look inside: a value or an exception. */
  datatype Attempt<+T> = Done(value: T) | Threw(exc: Exc)

  /** How a `run` method ends: returning a value (an exit code or None) or raising. */
  datatype Status = Returned(code: Option<int>) | Raised(exc: Exc)

  predicate IsAsciiLetter(c: char) { 'a' <= c <= 'z' || 'A' <= c <= 'Z' }

  predicate IsAsciiUpper(c: char) { 'A' <= c <= 'Z' }

  /** Python 2 `bool(v)`. */
  predicate Truthy(v: PyVal)
  {
    match v
    case PNone => false
    case PBool(b) => b
    case PInt(i) => i != 0
    case PStr(s) => s != ""
    case PList(items) => items != []
    case PTuple(items) => items != []
    case PDict(entries) => entries != []
    case _ => true
  }

  /** Python `callable(v)`: functions and classes. */
  predicate Callable(v: PyVal)
  {
    v.PFunc? || v.PClass?
  }

  /** `isinstance(v, basestring)` */
  predicate IsStr(v: PyVal) { v.PStr? }

  /** `isinstance(v, (list, tuple))` */
  predicate IsSequence(v: PyVal) { v.PList? || v.PTuple? }

  /** The integer value of a bool or int, which Python compares numerically. */
  function Numeric(v: PyVal): int
    requires v.PBool? || v.PInt?
  {
    if v.PBool? then (if v.b then 1 else 0) else v.i
  }

  /**
   * Python `a == b` on the modelled values: booleans and integers compare
   * numerically, lists and tuples element by element (a list never equals a
   * tuple), dictionaries as mappings, everything else by identity.
   */
  predicate PyEq(a: PyVal, b: PyVal)
    decreases a, 0
  {
    if (a.PBool? || a.PInt?) && (b.PBool? || b.PInt?) then Numeric(a) == Numeric(b)
    else match a
      case PList(xs) =>
        b.PList? && |xs| == |b.items| && forall i :: 0 <= i < |xs| ==> PyEq(xs[i], b.items[i])
      case PTuple(xs) =>
        b.PTuple? && |xs| == |b.items| && forall i :: 0 <= i < |xs| ==> PyEq(xs[i], b.items[i])
      case PDict(xs) =>
        b.PDict? && |xs| == |b.entries| && forall i :: 0 <= i < |xs| ==> HasEntry(xs[i], b.entries)
      case _ => a == b
  }

  /** Some entry of `entries` equals `e` in key and in value. */
  predicate HasEntry(e: (PyVal, PyVal), entries: seq<(PyVal, PyVal)>)
    decreases e, |entries|
  {
    entries != [] &&
    ((PyEq(e.0, entries[0].0) && PyEq(e.1, entries[0].1)) || HasEntry(e, entries[1..]))
  }

  /** Every value equals itself under Python's `==`. */
  lemma {:induction false} PyEqReflexive(a: PyVal)
    ensures PyEq(a, a)
    decreases a
  {
    match a
    case PList(xs) =>
      forall i | 0 <= i < |xs| ensures PyEq(xs[i], xs[i]) { PyEqReflexive(xs[i]); }
    case PTuple(xs) =>
      forall i | 0 <= i < |xs| ensures PyEq(xs[i], xs[i]) { PyEqReflexive(xs[i]); }
    case PDict(xs) =>
      forall i | 0 <= i < |xs| ensures HasEntry(xs[i], xs) {
        PyEqReflexive(xs[i].0);
        PyEqReflexive(xs[i].1);
        HasEntryAt(xs[i], xs, i);
      }
    case _ =>
  }

  lemma {:induction false} HasEntryAt(e: (PyVal, PyVal), entries: seq<(PyVal, PyVal)>, i: nat)
    requires i < |entries| && entries[i] == e && PyEq(e.0, e.0) && PyEq(e.1, e.1)
    ensures HasEntry(e, entries)
    decreases i
  {
    if i > 0 { HasEntryAt(e, entries[1..], i - 1); }
  }

  /** `for x in v`: the items a loop over `v` visits, or None when `v` is not iterable. */
  function Iterate(v: PyVal): (r: Option<seq<PyVal>>)
    ensures v.PList? || v.PTuple? ==> r == Some(v.items)
    ensures v.PStr? ==> r.Some? && |r.value| == |v.s| &&
                        forall i :: 0 <= i < |v.s| ==> r.value[i] == PStr([v.s[i]])
    ensures r.None? <==> !(v.PList? || v.PTuple? || v.PStr? || v.PDict?)
  {
    match v
    case PList(items) => Some(items)
    case PTuple(items) => Some(items)
    case PStr(s) => Some(seq(|s|, i requires 0 <= i < |s| => PStr([s[i]])))
    case PDict(entries) => Some(seq(|entries|, i requires 0 <= i < |entries| => entries[i].0))
    case _ => None
  }

  /**
   * The text a Python regular expression anchored with `$` is matched
   * against: `$` also matches just before one trailing newline.
   */
  function Chomp(s: string): string
  {
    if |s| > 0 && s[|s| - 1] == '\n' then s[..|s| - 1] else s
  }
}
