/**
 * The functions lmi/scripts/common/command/meta.py generates for end-point
 * commands: the `render` methods of show-instance commands, which turn a CIM
 * instance into a list of labels and a list of values, and the
 * `check_result` method of check-result commands, built from EXPECT.
 *
 * Calling a render function given in PROPERTIES, or a callable EXPECT, is an
 * oracle: a function from the callee and its arguments to a value or an
 * exception.
 */
module Render {
  import opened PyValues

  /** `f(x)` for a callable `f`: its return value, or the exception it raised. */
  type Call = (PyVal, PyVal) -> Attempt<PyVal>

  /** `f(x, y)` for a callable `f`. */
  type Call2 = (PyVal, PyVal, PyVal) -> Attempt<PyVal>

  /** The `render` a show-instance command is given (the `None` of line 296 is not one of these). */
  datatype Renderer =
    | RenderWith(properties: seq<PyVal>)  // `_make_render_with_properties(PROPERTIES)`
    | RenderDynamic                      // `_render_dynamic`
    | RenderAll                          // the `_render` of `_make_render_all_properties`

  /** The `check_result` built from EXPECT. */
  datatype Checker =
    | Equals(expected: PyVal)   // a non-callable EXPECT, kept as `check_result.expected`
    | Predicate(fn: PyVal)  // a callable EXPECT

  /** The value of the first entry of `entries` whose key equals `key`. */
  function DictGet(entries: seq<(PyVal, PyVal)>, key: PyVal): (r: Option<PyVal>)
    ensures r.Some? ==> exists i :: 0 <= i < |entries| && PyEq(entries[i].0, key) && entries[i].1 == r.value
    ensures r.None? ==> forall i :: 0 <= i < |entries| ==> !PyEq(entries[i].0, key)
  {
    if entries == [] then None
    else if PyEq(entries[0].0, key) then Some(entries[0].1)
    else DictGet(entries[1..], key)
  }

  /** `v[n]` for a small index `n`. */
  function Item(v: PyVal, n: nat): (r: Attempt<PyVal>)
    ensures IsSequence(v) ==> (r.Done? <==> n < |v.items|)
    ensures IsSequence(v) && n < |v.items| ==> r.value == v.items[n]
  {
    match v
    case PList(items) => if n < |items| then Done(items[n]) else Threw(IndexError)
    case PTuple(items) => if n < |items| then Done(items[n]) else Threw(IndexError)
    case PStr(s) => if n < |s| then Done(PStr([s[n]])) else Threw(IndexError)
    case PDict(entries) =>
      (match DictGet(entries, PInt(n)) case Some(x) => Done(x) case None => Threw(KeyError(if n == 0 then "0" else "1")))
    case _ => Threw(TypeError)
  }

  /** `prop in inst.properties()` */
  predicate HasProperty(props: seq<(string, PyVal)>, name: string)
  {
    exists i :: 0 <= i < |props| && props[i].0 == name
  }

  /** `getattr(inst, name)` for a property the instance has. */
  function PropertyValue(props: seq<(string, PyVal)>, name: string): (r: PyVal)
    requires HasProperty(props, name)
    ensures exists i :: 0 <= i < |props| && props[i] == (name, r)
  {
    if props[0].0 == name then props[0].1 else PropertyValue(props[1..], name)
  }

  /**
   * The label and value one PROPERTIES item renders to (lines 259-282): a
   * name gives its property's value, or "UNKNOWN" when the instance lacks
   * it; a pair gives its first item and what its second item returns on the
   * instance, or "ERROR" when that raises (a missing or uncallable second
   * item raises too).
   */
  function RenderProp(prop: PyVal, inst: PyVal, call: Call): Attempt<(PyVal, PyVal)>
  {
    if prop.PStr? then
      if !inst.PInstance? then Threw(AttributeError)
      else if !HasProperty(inst.properties, prop.s) then Done((prop, PStr("UNKNOWN")))
      else Done((prop, PropertyValue(inst.properties, prop.s)))
    else
      match Item(prop, 0)
      case Threw(e) => Threw(e)
      case Done(heading) =>
        var value :=
          match Item(prop, 1)
          case Threw(_) => PStr("ERROR")
          case Done(f) =>
            if !Callable(f) then PStr("ERROR")
            else match call(f, inst) case Threw(_) => PStr("ERROR") case Done(v) => v;
        Done((heading, value))
  }

  /**
   * The pair `(column_names, values)` the render function of `props` returns
   * for `inst`: one label and one value per item, in declared order; the
   * first item that raises ends it.
   */
  function RenderProps(props: seq<PyVal>, inst: PyVal, call: Call): (r: Attempt<(seq<PyVal>, seq<PyVal>)>)
    ensures r.Done? <==> forall i :: 0 <= i < |props| ==> RenderProp(props[i], inst, call).Done?
    ensures r.Done? ==>
              |r.value.0| == |props| && |r.value.1| == |props| &&
              forall i :: 0 <= i < |props| ==> RenderProp(props[i], inst, call).value == (r.value.0[i], r.value.1[i])
    ensures r.Threw? ==>
              exists k :: 0 <= k < |props| && RenderProp(props[k], inst, call) == Threw(r.exc) &&
                forall i :: 0 <= i < k ==> RenderProp(props[i], inst, call).Done?
  {
    if props == [] then Done(([], []))
    else
      match RenderProp(props[0], inst, call)
      case Threw(e) => Threw(e)
      case Done(lv) =>
        match RenderProps(props[1..], inst, call)
        case Threw(e) => Threw(e)
        case Done(rest) => Done(([lv.0] + rest.0, [lv.1] + rest.1))
  }

  /** The lists rendered so far, followed by what the remaining items render to. */
  function After(names: seq<PyVal>, values: seq<PyVal>, rest: Attempt<(seq<PyVal>, seq<PyVal>)>)
    : Attempt<(seq<PyVal>, seq<PyVal>)>
  {
    match rest
    case Threw(e) => Threw(e)
    case Done(r) => Done((names + r.0, values + r.1))
  }

  lemma AfterAfter(n1: seq<PyVal>, v1: seq<PyVal>, n2: seq<PyVal>, v2: seq<PyVal>,
                   rest: Attempt<(seq<PyVal>, seq<PyVal>)>)
    ensures After(n1, v1, After(n2, v2, rest)) == After(n1 + n2, v1 + v2, rest)
  {
    if rest.Done? {
      assert n1 + (n2 + rest.value.0) == (n1 + n2) + rest.value.0;
      assert v1 + (v2 + rest.value.1) == (v1 + v2) + rest.value.1;
    }
  }

  lemma RenderPropsStep(props: seq<PyVal>, i: nat, inst: PyVal, call: Call)
    requires i < |props|
    ensures RenderProps(props[i..], inst, call) ==
            match RenderProp(props[i], inst, call)
            case Threw(e) => Threw(e)
            case Done(lv) => After([lv.0], [lv.1], RenderProps(props[i + 1..], inst, call))
  {
    assert props[i..][0] == props[i] && props[i..][1..] == props[i + 1..];
  }

  /** The `_render` closure of `_make_render_with_properties`, appending to two lists. */
  method RenderWithProperties(props: seq<PyVal>, inst: PyVal, call: Call)
    returns (r: Attempt<(seq<PyVal>, seq<PyVal>)>)
    ensures r == RenderProps(props, inst, call)
  {
    var columnNames: seq<PyVal> := [];
    var values: seq<PyVal> := [];
    assert props[0..] == props;
    ghost var whole := RenderProps(props, inst, call);
    if whole.Done? {
      assert [] + whole.value.0 == whole.value.0 && [] + whole.value.1 == whole.value.1;
    }
    for i := 0 to |props|
      invariant RenderProps(props, inst, call) == After(columnNames, values, RenderProps(props[i..], inst, call))
    {
      RenderPropsStep(props, i, inst, call);
      var item := RenderProp(props[i], inst, call);
      if item.Threw? {
        return Threw(item.exc);
      }
      AfterAfter(columnNames, values, [item.value.0], [item.value.1], RenderProps(props[i + 1..], inst, call));
      columnNames := columnNames + [item.value.0];
      values := values + [item.value.1];
    }
    assert props[|props|..] == [];
    assert columnNames + [] == columnNames && values + [] == values;
    return Done((columnNames, values));
  }

  /** A named property the instance does not have renders as "UNKNOWN". */
  lemma UnknownProperty(props: seq<PyVal>, inst: PyVal, call: Call, i: nat)
    requires i < |props| && props[i].PStr? && inst.PInstance? && !HasProperty(inst.properties, props[i].s)
    requires RenderProps(props, inst, call).Done?
    ensures RenderProps(props, inst, call).value.0[i] == props[i]
    ensures RenderProps(props, inst, call).value.1[i] == PStr("UNKNOWN")
  {
  }

  /** A pair whose render function raises renders as "ERROR", under its own label. */
  lemma FailingRenderFunction(props: seq<PyVal>, inst: PyVal, call: Call, i: nat, heading: PyVal, f: PyVal, e: Exc)
    requires i < |props| && props[i] == PTuple([heading, f]) && Callable(f) && call(f, inst) == Threw(e)
    ensures RenderProp(props[i], inst, call) == Done((heading, PStr("ERROR")))
  {
  }

  /** `'' if value is None else value` */
  function Blank(v: PyVal): PyVal
  {
    if v == PNone then PStr("") else v
  }

  /**
   * The `_render` closure of `_make_render_all_properties` (lines 230-242):
   * every property of the instance, in order, with `None` shown as `''`.
   * Line 237 reads `inst.properties` as a dictionary of the instance's
   * properties; line 263 calls `inst.properties()` as a method instead,
   * and under that reading `.items()` would raise AttributeError. This
   * model takes the first reading.
   */
  method RenderAllProperties(inst: PyVal) returns (r: Attempt<(seq<PyVal>, seq<PyVal>)>)
    ensures r == AllProperties(inst)
    ensures r.Done? <==> inst.PInstance?
    ensures r.Threw? ==> r.exc == AttributeError
    ensures r.Done? ==>
              |r.value.0| == |inst.properties| && |r.value.1| == |inst.properties| &&
              forall i :: 0 <= i < |inst.properties| ==>
                r.value.0[i] == PStr(inst.properties[i].0) && r.value.1[i] == Blank(inst.properties[i].1)
  {
    if !inst.PInstance? {
      return Threw(AttributeError);
    }
    var columnNames: seq<PyVal> := [];
    var values: seq<PyVal> := [];
    var items := inst.properties;
    for i := 0 to |items|
      invariant |columnNames| == i && |values| == i
      invariant forall j :: 0 <= j < i ==> columnNames[j] == PStr(items[j].0) && values[j] == Blank(items[j].1)
    {
      var (propName, value) := items[i];
      columnNames := columnNames + [PStr(propName)];
      if value == PNone {
        value := PStr("");
      }
      values := values + [value];
    }
    assert columnNames == AllProperties(inst).value.0 && values == AllProperties(inst).value.1;
    return Done((columnNames, values));
  }

  /** The labels and values of every property of `inst`, `None` shown as `''`. */
  function AllProperties(inst: PyVal): Attempt<(seq<PyVal>, seq<PyVal>)>
  {
    if !inst.PInstance? then Threw(AttributeError)
    else
      var props := inst.properties;
      Done((seq(|props|, i requires 0 <= i < |props| => PStr(props[i].0)),
            seq(|props|, i requires 0 <= i < |props| => Blank(props[i].1))))
  }

  /** `properties, inst = return_value`: exactly two items, or an exception. */
  function Unpack2(v: PyVal): (r: Attempt<(PyVal, PyVal)>)
    ensures r.Done? <==> Iterate(v).Some? && |Iterate(v).value| == 2
    ensures r.Done? ==> r.value == (Iterate(v).value[0], Iterate(v).value[1])
  {
    match Iterate(v)
    case None => Threw(TypeError)
    case Some(items) => if |items| == 2 then Done((items[0], items[1])) else Threw(ValueError)
  }

  /** What the generated `render` makes of the associated function's result. */
  function Rendered(renderer: Renderer, result: PyVal, call: Call): Attempt<(seq<PyVal>, seq<PyVal>)>
  {
    match renderer
    case RenderWith(props) => RenderProps(props, result, call)
    case RenderAll => AllProperties(result)
    case RenderDynamic =>
      match Unpack2(result)
      case Threw(e) => Threw(e)
      case Done(pair) =>
        match Iterate(pair.0)
        case None => Threw(TypeError)
        case Some(props) => RenderProps(props, pair.1, call)
  }

  /** `_render_dynamic` (lines 297-301): unpack `(properties, inst)` and render those properties. */
  method RenderDynamicProperties(result: PyVal, call: Call) returns (r: Attempt<(seq<PyVal>, seq<PyVal>)>)
    ensures r == Rendered(RenderDynamic, result, call)
  {
    var pair := Unpack2(result);
    if pair.Threw? {
      return Threw(pair.exc);
    }
    var (properties, inst) := pair.value;
    var props := Iterate(properties);
    if props.None? {
      return Threw(TypeError);
    }
    r := RenderWithProperties(props.value, inst, call);
  }

  /** A dynamic result renders exactly as the static properties it carries would. */
  lemma DynamicIsStatic(props: seq<PyVal>, inst: PyVal, call: Call)
    ensures Rendered(RenderDynamic, PTuple([PList(props), inst]), call) == Rendered(RenderWith(props), inst, call)
  {
  }

  /** `result.rval` for an LMIReturnValue, the result itself otherwise. */
  function Unwrap(result: PyVal): (r: PyVal)
    ensures !result.PReturnValue? ==> r == result
  {
    if result.PReturnValue? then result.rval else result
  }

  /**
   * The generated `check_result(options, result)` (lines 321-342): whether
   * an equality EXPECT equals the unwrapped result, or what a callable EXPECT
   * returns for the options and the unwrapped result.
   */
  function CheckResult(checker: Checker, options: PyVal, result: PyVal, call2: Call2): (r: Attempt<PyVal>)
    ensures checker.Equals? ==> r.Done? && r.value.PBool?
  {
    match checker
    case Equals(expected) => Done(PBool(PyEq(expected, Unwrap(result))))
    case Predicate(fn) => call2(fn, options, Unwrap(result))
  }

  /** An equality check passes on its expected value, bare or wrapped in a return value. */
  lemma ExpectedPasses(expected: PyVal, options: PyVal, call2: Call2)
    requires !expected.PReturnValue?
    ensures CheckResult(Equals(expected), options, expected, call2) == Done(PBool(true))
    ensures CheckResult(Equals(expected), options, PReturnValue(expected), call2) == Done(PBool(true))
  {
    PyEqReflexive(expected);
  }

  /** `EXPECT = 0` also accepts `False`: Python compares booleans and integers numerically. */
  lemma ZeroAcceptsFalse(options: PyVal, call2: Call2)
    ensures CheckResult(Equals(PInt(0)), options, PBool(false), call2) == Done(PBool(true))
    ensures CheckResult(Equals(PInt(0)), options, PList([]), call2) == Done(PBool(false))
  {
  }

  /** A callable EXPECT decides alone, on the unwrapped result. */
  lemma PredicateDelegates(fn: PyVal, options: PyVal, rval: PyVal, call2: Call2)
    ensures CheckResult(Predicate(fn), options, PReturnValue(rval), call2) == call2(fn, options, rval)
  {
  }
}
