/**
 * The metaclasses of lmi/scripts/common/command/meta.py: each checks the
 * class properties of a command declaration (its class dictionary, `dcl`),
 * removes them, and installs the methods they stand for, or raises.
 *
 * A class dictionary maps attribute names to the values the declaration
 * gave, or to the methods a metaclass generated. Each builder is a function
 * from the dictionary before to the dictionary after, or to the error. The
 * import of a CALLABLE given as a string is a lookup in `registry`;
 * `base.RE_COMMAND_NAME` is the predicate `isCommandName`; whether the bases
 * leave `execute` abstract is `executeAbstract`.
 */
module Meta {
  import opened PyValues
  import opened Render

  /** The methods the metaclasses generate. */
  datatype Generated =
    | GetUsage(text: string)               // `_new_get_usage`, returning OWN_USAGE
    | HasOwnUsage                          // `has_own_usage`, returning True
    | GetColumns(columns: PyVal)           // `get_columns`, returning COLUMNS
    | RenderMethod(renderer: Renderer)     // a generated `render`
    | CheckResultMethod(checker: Checker)  // the generated `check_result`
    | ChildCommands(commands: PyVal)       // `child_commands`, returning COMMANDS
    | Execute(dest: PyVal)                 // `_execute`, calling `dest`

  datatype Entry = Val(v: PyVal) | Gen(g: Generated)

  type ClassDict = map<string, Entry>

  /** The exceptions a declaration can raise. */
  datatype MetaError =
    | InvalidProperty(message: string)   // LmiCommandInvalidProperty
    | InvalidCallable(message: string)   // LmiCommandInvalidCallable
    | ImportFailed(callable: string)     // LmiCommandImportFailed
    | CommandError(message: string)      // LmiCommandError
    | InvalidName(name: string)          // LmiCommandInvalidName
    | Py(exc: Exc)                       // raised by Python itself

  /** `dcl.get(key, default)`; a generated method reads as a function object. */
  function Get(dcl: ClassDict, key: string, default: PyVal): (r: PyVal)
    ensures key !in dcl ==> r == default
    ensures key in dcl && dcl[key].Val? ==> r == dcl[key].v
  {
    if key !in dcl then default
    else match dcl[key] case Val(v) => v case Gen(_) => PFunc(key)
  }

  /** Every entry of `before` other than those of `changed` is still in `after`, unchanged. */
  predicate Keeps(before: ClassDict, after: ClassDict, changed: set<string>)
  {
    forall k :: k in before && k !in changed ==> k in after && after[k] == before[k]
  }

  // ------------------------------------------------------------ OWN_USAGE

  /** OWN_USAGE is `True` or a string: the class has a usage string of its own. */
  predicate OwnUsageSet(dcl: ClassDict)
  {
    Get(dcl, "OWN_USAGE", PBool(false)) == PBool(true) || Get(dcl, "OWN_USAGE", PBool(false)).PStr?
  }

  function WithOwnUsage(dcl: ClassDict): ClassDict
  {
    if "has_own_usage" in dcl then dcl else dcl["has_own_usage" := Gen(HasOwnUsage)]
  }

  /**
   * `_handle_usage` (lines 44-82): pop OWN_USAGE. `True` demands a docstring;
   * a string becomes the docstring when there is none and is otherwise
   * returned by a generated `get_usage`, unless the class has its own; either
   * way `has_own_usage` is installed unless the class has its own.
   */
  function HandleUsage(dcl: ClassDict): (r: Result<ClassDict, MetaError>)
    ensures r.Failure? <==>
              Get(dcl, "OWN_USAGE", PBool(false)) == PBool(true) &&
              ("__doc__" !in dcl || dcl["__doc__"] == Val(PNone))
    ensures r.Failure? ==>
              r.error == (if "__doc__" !in dcl then Py(KeyError("__doc__"))
                          else InvalidProperty("OWN_USAGE set to True, but no __doc__ string present!"))
    ensures r.Success? ==> "OWN_USAGE" !in r.value
    ensures r.Success? ==> Keeps(dcl, r.value, {"OWN_USAGE"})
    ensures r.Success? ==> forall k :: k in r.value ==> k in dcl || k in {"__doc__", "get_usage", "has_own_usage"}
    ensures r.Success? ==> ("has_own_usage" in r.value <==> "has_own_usage" in dcl || OwnUsageSet(dcl))
    ensures r.Success? && "has_own_usage" !in dcl && OwnUsageSet(dcl) ==> r.value["has_own_usage"] == Gen(HasOwnUsage)
    ensures r.Success? && Get(dcl, "OWN_USAGE", PBool(false)).PStr? ==>
              var text := Get(dcl, "OWN_USAGE", PBool(false));
              ("__doc__" !in dcl ==> "__doc__" in r.value && r.value["__doc__"] == Val(text)) &&
              ("__doc__" in dcl && "get_usage" !in dcl ==> "get_usage" in r.value && r.value["get_usage"] == Gen(GetUsage(text.s)))
    ensures !OwnUsageSet(dcl) ==> r == Success(dcl - {"OWN_USAGE"})
  {
    var hlp := Get(dcl, "OWN_USAGE", PBool(false));
    var d := dcl - {"OWN_USAGE"};
    if hlp == PBool(true) then
      if "__doc__" !in d then Failure(Py(KeyError("__doc__")))
      else if d["__doc__"] == Val(PNone) then
        Failure(InvalidProperty("OWN_USAGE set to True, but no __doc__ string present!"))
      else Success(WithOwnUsage(d))
    else if hlp.PStr? then
      if "__doc__" !in d then Success(WithOwnUsage(d["__doc__" := Val(hlp)]))
      else if "get_usage" !in d then Success(WithOwnUsage(d["get_usage" := Gen(GetUsage(hlp.s))]))
      else Success(WithOwnUsage(d))
    else Success(d)
  }

  // ------------------------------------------------------------- CALLABLE

  predicate IsWordChar(c: char) { IsAsciiLetter(c) || c == '_' }

  /** `[a-z_]+`, ignoring case */
  predicate IsFuncName(s: string)
  {
    |s| > 0 && forall i :: 0 <= i < |s| ==> IsWordChar(s[i])
  }

  /** `[a-z_]+(?:\.[a-z_]+)*`, ignoring case: words joined by single dots. */
  predicate IsModuleName(s: string)
  {
    |s| > 0 && IsWordChar(s[0]) && IsWordChar(s[|s| - 1]) &&
    (forall i :: 0 <= i < |s| ==> IsWordChar(s[i]) || s[i] == '.') &&
    (forall i :: 0 <= i < |s| - 1 ==> s[i] != '.' || s[i + 1] != '.')
  }

  /** The index of the first `:` of `s`, or `|s|`. */
  function ColonAt(s: string): (i: nat)
    ensures i <= |s|
    ensures i < |s| ==> s[i] == ':'
    ensures forall j :: 0 <= j < i ==> s[j] != ':'
  {
    if s == [] || s[0] == ':' then 0 else 1 + ColonAt(s[1..])
  }

  /**
   * `RE_CALLABLE` (lines 38-40): the module and function names of a
   * CALLABLE string `module(.module)*:func`, or None. As `$` also matches
   * before a final newline, one trailing newline is tolerated.
   */
  function ParseCallable(s: string): Option<(string, string)>
  {
    var m := Chomp(s);
    var i := ColonAt(m);
    if i < |m| && IsModuleName(m[..i]) && IsFuncName(m[i + 1..]) then Some((m[..i], m[i + 1..]))
    else None
  }

  /** A well-formed CALLABLE string parses back into its module and function names. */
  lemma CallableRoundTrip(mod: string, func: string)
    requires IsModuleName(mod) && IsFuncName(func)
    ensures ParseCallable(mod + ":" + func) == Some((mod, func))
  {
    var s := mod + ":" + func;
    assert s[|s| - 1] == func[|func| - 1];
    assert Chomp(s) == s;
    assert s[|mod|] == ':';
    assert forall j :: 0 <= j < |mod| ==> s[j] == mod[j];
    assert ColonAt(s) == |mod|;
    assert s[..|mod|] == mod;
    assert s[|mod| + 1..] == func;
  }

  /** Only well-formed CALLABLE strings parse, and what they parse into is what they are made of. */
  lemma CallableParsed(s: string, mod: string, func: string)
    requires ParseCallable(s) == Some((mod, func))
    ensures IsModuleName(mod) && IsFuncName(func)
    ensures s == mod + ":" + func || s == mod + ":" + func + "\n"
  {
    var m := Chomp(s);
    var i := ColonAt(m);
    assert m == m[..i] + ":" + m[i + 1..];
  }

  /** A CALLABLE without a colon is refused. */
  lemma ColonRequired(s: string)
    requires forall i :: 0 <= i < |s| ==> s[i] != ':'
    ensures ParseCallable(s) == None
  {
  }

  /**
   * The associated function a CALLABLE value stands for (lines 118-134): a
   * string must be well formed and name a function of a module that imports.
   */
  function ImportCallable(func: PyVal, registry: map<(string, string), PyVal>): (r: Result<PyVal, MetaError>)
    ensures !func.PStr? ==> r == Success(func)
    ensures func.PStr? ==>
              (r.Success? <==> ParseCallable(func.s).Some? && ParseCallable(func.s).value in registry)
    ensures func.PStr? && r.Success? ==> r.value == registry[ParseCallable(func.s).value]
    ensures func.PStr? && ParseCallable(func.s).None? ==>
              r == Failure(InvalidCallable("Callable \"" + func.s + "\" has invalid format (':' expected)"))
  {
    if !func.PStr? then Success(func)
    else match ParseCallable(func.s)
      case None => Failure(InvalidCallable("Callable \"" + func.s + "\" has invalid format (':' expected)"))
      case Some(names) =>
        if names in registry then Success(registry[names]) else Failure(ImportFailed(func.s))
  }

  /**
   * The whole check of CALLABLE, as evidently intended: the associated
   * function, or None when there is none; anything else that is not
   * callable is refused with LmiCommandInvalidCallable.
   */
  function ResolveCallable(func: PyVal, registry: map<(string, string), PyVal>): (r: Result<PyVal, MetaError>)
    ensures r.Success? ==> r.value == PNone || Callable(r.value)
    ensures !func.PStr? ==> (r.Success? <==> func == PNone || Callable(func))
    ensures ImportCallable(func, registry).Failure? ==> r == ImportCallable(func, registry)
  {
    match ImportCallable(func, registry)
    case Failure(e) => Failure(e)
    case Success(f) =>
      if f != PNone && !Callable(f) then Failure(InvalidCallable("is not a callable object or function."))
      else Success(f)
  }

  /**
   * The check as written (lines 142-145): the message for a non-callable
   * reads `func.__module__` and `func.__name__`, which no non-callable value
   * of this model has both of, so AttributeError is raised instead.
   */
  function ResolveCallableAsWritten(func: PyVal, registry: map<(string, string), PyVal>): (r: Result<PyVal, MetaError>)
    ensures r.Success? ==> r.value == PNone || Callable(r.value)
    ensures !func.PStr? ==> (r.Success? <==> func == PNone || Callable(func))
    ensures ImportCallable(func, registry).Failure? ==> r == ImportCallable(func, registry)
    ensures r.Failure? && r.error.InvalidCallable? ==> func.PStr? && ParseCallable(func.s).None?
    ensures ImportCallable(func, registry).Success? &&
            ImportCallable(func, registry).value != PNone && !Callable(ImportCallable(func, registry).value) ==>
              r == Failure(Py(AttributeError))
  {
    match ImportCallable(func, registry)
    case Failure(e) => Failure(e)
    case Success(f) => if f != PNone && !Callable(f) then Failure(Py(AttributeError)) else Success(f)
  }

  /**
   * The two checks accept the same values and resolve them alike; they
   * differ exactly on a value that imports but is neither None nor
   * callable, which the source refuses with AttributeError instead of
   * LmiCommandInvalidCallable.
   */
  lemma ResolveCallableDiffers(func: PyVal, registry: map<(string, string), PyVal>)
    ensures ResolveCallableAsWritten(func, registry).Success? <==> ResolveCallable(func, registry).Success?
    ensures ResolveCallable(func, registry).Success? ==>
              ResolveCallableAsWritten(func, registry).value == ResolveCallable(func, registry).value
    ensures ResolveCallableAsWritten(func, registry) != ResolveCallable(func, registry) <==>
              ImportCallable(func, registry).Success? &&
              ImportCallable(func, registry).value != PNone && !Callable(ImportCallable(func, registry).value)
    ensures ResolveCallableAsWritten(func, registry) != ResolveCallable(func, registry) ==>
              ResolveCallableAsWritten(func, registry) == Failure(Py(AttributeError)) &&
              ResolveCallable(func, registry) == Failure(InvalidCallable("is not a callable object or function."))
  {
  }

  /** `CALLABLE = 5` is refused with AttributeError instead of LmiCommandInvalidCallable. */
  lemma NonCallableMisreported(registry: map<(string, string), PyVal>)
    ensures ResolveCallableAsWritten(PInt(5), registry) == Failure(Py(AttributeError))
    ensures ResolveCallable(PInt(5), registry).Failure? && ResolveCallable(PInt(5), registry).error.InvalidCallable?
  {
  }

  // ------------------------------------------------------------ end points

  /**
   * `EndPointCommandMetaClass.__new__` (lines 116-150): handle OWN_USAGE,
   * resolve CALLABLE, and, when there is an associated function and `execute`
   * is still abstract, replace CALLABLE by an `execute` calling it. A missing
   * CALLABLE is not an error, and a CALLABLE that is neither None nor
   * callable raises AttributeError, as the source does.
   */
  function BuildEndPoint(dcl: ClassDict, registry: map<(string, string), PyVal>, executeAbstract: bool)
    : (r: Result<ClassDict, MetaError>)
    ensures r.Success? <==>
              HandleUsage(dcl).Success? && ResolveCallableAsWritten(Get(dcl, "CALLABLE", PNone), registry).Success?
    ensures r.Success? ==>
              var func := ResolveCallableAsWritten(Get(dcl, "CALLABLE", PNone), registry).value;
              var installed := func != PNone && executeAbstract;
              "OWN_USAGE" !in r.value &&
              ("CALLABLE" in r.value <==> "CALLABLE" in dcl && !installed) &&
              (installed ==> "execute" in r.value && r.value["execute"] == Gen(Execute(func)) && Callable(func)) &&
              Keeps(dcl, r.value, {"OWN_USAGE", "CALLABLE", "execute"}) &&
              forall k :: k in r.value ==> k in dcl || k in {"__doc__", "get_usage", "has_own_usage", "execute"}
    ensures HandleUsage(dcl).Failure? ==> r == Failure(HandleUsage(dcl).error)
    ensures HandleUsage(dcl).Success? && ResolveCallableAsWritten(Get(dcl, "CALLABLE", PNone), registry).Failure? ==>
              r == Failure(ResolveCallableAsWritten(Get(dcl, "CALLABLE", PNone), registry).error)
    ensures "CALLABLE" !in dcl ==> r == HandleUsage(dcl)
  {
    match HandleUsage(dcl)
    case Failure(e) => Failure(e)
    case Success(d) =>
      match ResolveCallableAsWritten(Get(d, "CALLABLE", PNone), registry)
      case Failure(e) => Failure(e)
      case Success(func) =>
        if func != PNone && executeAbstract then Success((d - {"CALLABLE"})["execute" := Gen(Execute(func))])
        else Success(d)
  }

  /**
   * An entry the end-point checks do not look at (neither OWN_USAGE,
   * `__doc__` nor CALLABLE) does not change whether they pass, nor the
   * error they raise.
   */
  lemma EndPointIgnores(d: ClassDict, k: string, e: Entry, registry: map<(string, string), PyVal>, executeAbstract: bool)
    requires k != "OWN_USAGE" && k != "__doc__" && k != "CALLABLE"
    ensures BuildEndPoint(d[k := e], registry, executeAbstract).Success? <==> BuildEndPoint(d, registry, executeAbstract).Success?
    ensures BuildEndPoint(d, registry, executeAbstract).Failure? ==>
              BuildEndPoint(d[k := e], registry, executeAbstract) == BuildEndPoint(d, registry, executeAbstract)
  {
    var d' := d[k := e];
    assert Get(d', "OWN_USAGE", PBool(false)) == Get(d, "OWN_USAGE", PBool(false));
    assert Get(d', "CALLABLE", PNone) == Get(d, "CALLABLE", PNone);
    assert ("__doc__" in d') == ("__doc__" in d);
    assert "__doc__" in d ==> d'["__doc__"] == d["__doc__"];
  }

  /** COLUMNS is a list or tuple of strings. */
  predicate ValidColumns(cols: PyVal)
  {
    IsSequence(cols) && forall i :: 0 <= i < |cols.items| ==> cols.items[i].PStr?
  }

  /**
   * `ListerMetaClass.__new__` (lines 168-182): pop COLUMNS; unless it is
   * None it must be a list or tuple of strings, which `get_columns` then
   * returns; then the end-point checks.
   */
  function BuildLister(dcl: ClassDict, registry: map<(string, string), PyVal>, executeAbstract: bool)
    : (r: Result<ClassDict, MetaError>)
    ensures var cols := Get(dcl, "COLUMNS", PNone);
            cols != PNone && !IsSequence(cols) ==>
              r == Failure(InvalidProperty("COLUMNS class property must be either list or tuple"))
    ensures var cols := Get(dcl, "COLUMNS", PNone);
            cols != PNone && IsSequence(cols) && !ValidColumns(cols) ==>
              r == Failure(InvalidProperty("COLUMNS must contain just column names as strings"))
  {
    var cols := Get(dcl, "COLUMNS", PNone);
    var d := dcl - {"COLUMNS"};
    if cols == PNone then BuildEndPoint(d, registry, executeAbstract)
    else if !IsSequence(cols) then Failure(InvalidProperty("COLUMNS class property must be either list or tuple"))
    else if !ValidColumns(cols) then Failure(InvalidProperty("COLUMNS must contain just column names as strings"))
    else BuildEndPoint(d["get_columns" := Gen(GetColumns(cols))], registry, executeAbstract)
  }

  /** A lister class that was built has no COLUMNS left. */
  lemma ListerColumnsPopped(dcl: ClassDict, registry: map<(string, string), PyVal>, executeAbstract: bool)
    requires BuildLister(dcl, registry, executeAbstract).Success?
    ensures "COLUMNS" !in BuildLister(dcl, registry, executeAbstract).value
  {
    var cols := Get(dcl, "COLUMNS", PNone);
    var d := dcl - {"COLUMNS"};
    if cols == PNone {
      assert "COLUMNS" !in d;
    } else {
      assert "COLUMNS" !in d["get_columns" := Gen(GetColumns(cols))];
    }
  }

  /** A COLUMNS that was not None is valid, and `get_columns` of the built class returns it. */
  lemma ListerColumnsInstalled(dcl: ClassDict, registry: map<(string, string), PyVal>, executeAbstract: bool)
    requires BuildLister(dcl, registry, executeAbstract).Success?
    requires Get(dcl, "COLUMNS", PNone) != PNone
    ensures ValidColumns(Get(dcl, "COLUMNS", PNone))
    ensures "get_columns" in BuildLister(dcl, registry, executeAbstract).value
    ensures BuildLister(dcl, registry, executeAbstract).value["get_columns"] == Gen(GetColumns(Get(dcl, "COLUMNS", PNone)))
  {
    var cols := Get(dcl, "COLUMNS", PNone);
    var d := (dcl - {"COLUMNS"})["get_columns" := Gen(GetColumns(cols))];
    assert BuildLister(dcl, registry, executeAbstract) == BuildEndPoint(d, registry, executeAbstract);
    assert "get_columns" in d && d["get_columns"] == Gen(GetColumns(cols));
  }

  /**
   * A valid (or None) COLUMNS leaves the outcome to the end-point checks of
   * the rest of the class: the lister is built exactly when they pass, and
   * fails with their error. A built lister differs from the declaration
   * only in COLUMNS, `get_columns` and what the end-point checks change.
   */
  lemma ListerBuildSucceeds(dcl: ClassDict, registry: map<(string, string), PyVal>, executeAbstract: bool)
    requires Get(dcl, "COLUMNS", PNone) == PNone || ValidColumns(Get(dcl, "COLUMNS", PNone))
    ensures var r := BuildLister(dcl, registry, executeAbstract);
            var base := BuildEndPoint(dcl - {"COLUMNS"}, registry, executeAbstract);
            (r.Success? <==> base.Success?) && (base.Failure? ==> r == base)
    ensures var r := BuildLister(dcl, registry, executeAbstract);
            r.Success? ==>
              Keeps(dcl, r.value, {"COLUMNS", "get_columns", "OWN_USAGE", "CALLABLE", "execute"}) &&
              forall k :: k in r.value ==> k in dcl || k in {"__doc__", "get_usage", "has_own_usage", "execute", "get_columns"}
  {
    var cols := Get(dcl, "COLUMNS", PNone);
    var d := dcl - {"COLUMNS"};
    if cols != PNone {
      EndPointIgnores(d, "get_columns", Gen(GetColumns(cols)), registry, executeAbstract);
      assert BuildLister(dcl, registry, executeAbstract) == BuildEndPoint(d["get_columns" := Gen(GetColumns(cols))], registry, executeAbstract);
    }
  }

  // -------------------------------------------------------- show instance

  /** A PROPERTIES item is a name, or a `(name, callable)` pair. */
  predicate ValidProperty(p: PyVal)
  {
    p.PStr? || (IsSequence(p) && |p.items| == 2 && p.items[0].PStr? && Callable(p.items[1]))
  }

  /** What `_check_properties` raises for one item, if anything. */
  function PropertyError(p: PyVal): (r: Option<MetaError>)
    ensures r.None? <==> ValidProperty(p)
  {
    if !(p.PStr? || IsSequence(p)) then Some(InvalidProperty("PROPERTIES must be a list of strings or tuples"))
    else if IsSequence(p) && !(|p.items| == 2 && p.items[0].PStr? && Callable(p.items[1])) then
      Some(InvalidProperty("tuples in PROPERTIES must be: (\"name\", callable)"))
    else None
  }

  /** The error of the first invalid item. */
  function FirstPropertyError(props: seq<PyVal>): (r: Option<MetaError>)
    ensures r.None? <==> forall i :: 0 <= i < |props| ==> ValidProperty(props[i])
    ensures r.Some? ==>
              exists k :: 0 <= k < |props| && PropertyError(props[k]) == r &&
                forall i :: 0 <= i < k ==> ValidProperty(props[i])
  {
    if props == [] then None
    else if PropertyError(props[0]).Some? then PropertyError(props[0])
    else FirstPropertyError(props[1..])
  }

  /** `_check_properties` (lines 197-220): None passes, anything else is iterated and each item checked. */
  function CheckProperties(props: PyVal): (r: Option<MetaError>)
    ensures r.None? <==>
              props == PNone ||
              (Iterate(props).Some? && forall i :: 0 <= i < |Iterate(props).value| ==> ValidProperty(Iterate(props).value[i]))
    ensures props != PNone && Iterate(props).None? ==> r == Some(Py(TypeError))
    ensures props != PNone && Iterate(props).Some? ==> r == FirstPropertyError(Iterate(props).value)
  {
    if props == PNone then None
    else match Iterate(props)
      case None => Some(Py(TypeError))
      case Some(items) => FirstPropertyError(items)
  }

  /**
   * `ShowInstanceMetaClass.__new__` (lines 287-307): pop DYNAMIC_PROPERTIES
   * and PROPERTIES, which exclude each other, check PROPERTIES, and install
   * `render`: for PROPERTIES a renderer of those properties, for
   * DYNAMIC_PROPERTIES the dynamic renderer, and for neither what `neither`
   * says (None: leave the class's own `render` alone); then the end-point
   * checks.
   */
  function ShowInstanceWith(dcl: ClassDict, registry: map<(string, string), PyVal>, executeAbstract: bool,
                            neither: Option<Entry>)
    : (r: Result<ClassDict, MetaError>)
    ensures Truthy(Get(dcl, "DYNAMIC_PROPERTIES", PBool(false))) && "PROPERTIES" in dcl ==>
              r == Failure(CommandError("DYNAMIC_PROPERTIES and PROPERTIES are mutually exclusive"))
    ensures r.Success? ==> "DYNAMIC_PROPERTIES" !in r.value && "PROPERTIES" !in r.value
    ensures r.Success? ==>
              var dynamic := Truthy(Get(dcl, "DYNAMIC_PROPERTIES", PBool(false)));
              var props := Get(dcl, "PROPERTIES", PNone);
              (props != PNone ==>
                 Iterate(props).Some? &&
                 "render" in r.value && r.value["render"] == Gen(RenderMethod(RenderWith(Iterate(props).value))) &&
                 forall i :: 0 <= i < |Iterate(props).value| ==> ValidProperty(Iterate(props).value[i])) &&
              (props == PNone && dynamic ==> "render" in r.value && r.value["render"] == Gen(RenderMethod(RenderDynamic))) &&
              (props == PNone && !dynamic && neither.Some? ==> "render" in r.value && r.value["render"] == neither.value) &&
              (props == PNone && !dynamic && neither.None? ==>
                 ("render" in r.value <==> "render" in dcl) && ("render" in dcl ==> r.value["render"] == dcl["render"]))
    ensures CheckProperties(Get(dcl, "PROPERTIES", PNone)).Some? && !Truthy(Get(dcl, "DYNAMIC_PROPERTIES", PBool(false))) ==>
              r == Failure(CheckProperties(Get(dcl, "PROPERTIES", PNone)).value)
  {
    var dynamic := Truthy(Get(dcl, "DYNAMIC_PROPERTIES", PBool(false)));
    var d := dcl - {"DYNAMIC_PROPERTIES"};
    if dynamic && "PROPERTIES" in d then
      Failure(CommandError("DYNAMIC_PROPERTIES and PROPERTIES are mutually exclusive"))
    else
      var props := Get(d, "PROPERTIES", PNone);
      match CheckProperties(props)
      case Some(e) => Failure(e)
      case None => InstallRender(d - {"PROPERTIES"}, props, dynamic, neither, registry, executeAbstract)
  }

  /**
   * The end-point checks on `d`, and the `render` of a show-instance
   * command whose PROPERTIES `props` passed the checks. The source installs
   * `render` first; the end-point checks neither read nor change it, so it
   * is installed here after them.
   */
  function InstallRender(d: ClassDict, props: PyVal, dynamic: bool, neither: Option<Entry>,
                         registry: map<(string, string), PyVal>, executeAbstract: bool)
    : (r: Result<ClassDict, MetaError>)
    requires "DYNAMIC_PROPERTIES" !in d && "PROPERTIES" !in d
    requires props == PNone || Iterate(props).Some?
    ensures r.Success? ==> "DYNAMIC_PROPERTIES" !in r.value && "PROPERTIES" !in r.value
    ensures r.Success? && props != PNone ==>
              "render" in r.value && r.value["render"] == Gen(RenderMethod(RenderWith(Iterate(props).value)))
    ensures r.Success? && props == PNone && dynamic ==>
              "render" in r.value && r.value["render"] == Gen(RenderMethod(RenderDynamic))
    ensures r.Success? && props == PNone && !dynamic && neither.Some? ==>
              "render" in r.value && r.value["render"] == neither.value
    ensures r.Success? && props == PNone && !dynamic && neither.None? ==>
              ("render" in r.value <==> "render" in d) && ("render" in d ==> r.value["render"] == d["render"])
    ensures r.Success? <==> BuildEndPoint(d, registry, executeAbstract).Success?
    ensures r.Failure? ==> r == BuildEndPoint(d, registry, executeAbstract)
    ensures r.Success? ==> Keeps(d, r.value, {"render", "OWN_USAGE", "CALLABLE", "execute"})
    ensures r.Success? ==>
              forall k :: k in r.value ==> k in d || k in {"__doc__", "get_usage", "has_own_usage", "execute", "render"}
  {
    match BuildEndPoint(d, registry, executeAbstract)
    case Failure(e) => Failure(e)
    case Success(c) =>
      if props != PNone then Success(c["render" := Gen(RenderMethod(RenderWith(Iterate(props).value)))])
      else if dynamic then Success(c["render" := Gen(RenderMethod(RenderDynamic))])
      else if neither.Some? then Success(c["render" := neither.value])
      else Success(c)
  }

  /**
   * A show-instance class is built exactly when DYNAMIC_PROPERTIES and
   * PROPERTIES are not both given, PROPERTIES passes its check, and the
   * end-point checks of the rest pass; past the first two checks it fails
   * with the end-point error. A built class differs from the declaration
   * only in the two popped keys, `render` and what the end-point checks
   * change.
   */
  lemma ShowInstanceBuildSucceeds(dcl: ClassDict, registry: map<(string, string), PyVal>, executeAbstract: bool,
                                  neither: Option<Entry>)
    ensures var r := ShowInstanceWith(dcl, registry, executeAbstract, neither);
            var dynamic := Truthy(Get(dcl, "DYNAMIC_PROPERTIES", PBool(false)));
            var checked := !(dynamic && "PROPERTIES" in dcl) && CheckProperties(Get(dcl, "PROPERTIES", PNone)).None?;
            var base := BuildEndPoint(dcl - {"DYNAMIC_PROPERTIES", "PROPERTIES"}, registry, executeAbstract);
            (r.Success? <==> checked && base.Success?) && (checked && base.Failure? ==> r == base)
    ensures var r := ShowInstanceWith(dcl, registry, executeAbstract, neither);
            r.Success? ==>
              Keeps(dcl, r.value, {"DYNAMIC_PROPERTIES", "PROPERTIES", "render", "OWN_USAGE", "CALLABLE", "execute"}) &&
              forall k :: k in r.value ==> k in dcl || k in {"__doc__", "get_usage", "has_own_usage", "execute", "render"}
  {
    var dynamic := Truthy(Get(dcl, "DYNAMIC_PROPERTIES", PBool(false)));
    var d := dcl - {"DYNAMIC_PROPERTIES"};
    assert d - {"PROPERTIES"} == dcl - {"DYNAMIC_PROPERTIES", "PROPERTIES"};
    if !(dynamic && "PROPERTIES" in d) {
      var props := Get(d, "PROPERTIES", PNone);
      assert props == Get(dcl, "PROPERTIES", PNone);
      if CheckProperties(props).None? {
        assert ShowInstanceWith(dcl, registry, executeAbstract, neither) ==
               InstallRender(d - {"PROPERTIES"}, props, dynamic, neither, registry, executeAbstract);
      }
    }
  }

  /**
   * `ShowInstanceMetaClass.__new__` as written: for neither PROPERTIES nor
   * DYNAMIC_PROPERTIES, line 296 stores what `_make_render_all_properties`
   * returns, which is None, over whatever `render` the class had.
   */
  function BuildShowInstanceAsWritten(dcl: ClassDict, registry: map<(string, string), PyVal>, executeAbstract: bool)
    : (r: Result<ClassDict, MetaError>)
    ensures r.Success? && Get(dcl, "PROPERTIES", PNone) == PNone && !Truthy(Get(dcl, "DYNAMIC_PROPERTIES", PBool(false))) ==>
              "render" in r.value && r.value["render"] == Val(PNone)
  {
    ShowInstanceWith(dcl, registry, executeAbstract, Some(Val(PNone)))
  }

  /**
   * `ShowInstanceMetaClass.__new__` as evidently intended: for neither,
   * `_make_render_all_properties` installs the renderer of all properties
   * when `render` is still abstract (line 230), and otherwise leaves the
   * class's own `render`.
   */
  function BuildShowInstance(dcl: ClassDict, registry: map<(string, string), PyVal>, executeAbstract: bool,
                             renderAbstract: bool)
    : (r: Result<ClassDict, MetaError>)
    ensures r.Success? && Get(dcl, "PROPERTIES", PNone) == PNone && !Truthy(Get(dcl, "DYNAMIC_PROPERTIES", PBool(false))) ==>
              (renderAbstract ==> "render" in r.value && r.value["render"] == Gen(RenderMethod(RenderAll))) &&
              (!renderAbstract ==> ("render" in r.value <==> "render" in dcl) &&
                                   ("render" in dcl ==> r.value["render"] == dcl["render"]))
  {
    ShowInstanceWith(dcl, registry, executeAbstract, if renderAbstract then Some(Gen(RenderMethod(RenderAll))) else None)
  }

  /**
   * The correction changes nothing but the `render` of a command with
   * neither PROPERTIES nor DYNAMIC_PROPERTIES: both versions accept and
   * refuse the same declarations, and agree on every other entry.
   */
  lemma RenderFixOnlyChangesRender(dcl: ClassDict, registry: map<(string, string), PyVal>, executeAbstract: bool)
    ensures BuildShowInstance(dcl, registry, executeAbstract, true).Success? <==>
            BuildShowInstanceAsWritten(dcl, registry, executeAbstract).Success?
    ensures BuildShowInstance(dcl, registry, executeAbstract, true).Failure? ==>
            BuildShowInstance(dcl, registry, executeAbstract, true) == BuildShowInstanceAsWritten(dcl, registry, executeAbstract)
    ensures BuildShowInstance(dcl, registry, executeAbstract, true).Success? ==>
            BuildShowInstance(dcl, registry, executeAbstract, true).value - {"render"} ==
            BuildShowInstanceAsWritten(dcl, registry, executeAbstract).value - {"render"}
  {
    var dynamic := Truthy(Get(dcl, "DYNAMIC_PROPERTIES", PBool(false)));
    var d := dcl - {"DYNAMIC_PROPERTIES"};
    if !(dynamic && "PROPERTIES" in d) {
      var props := Get(d, "PROPERTIES", PNone);
      if CheckProperties(props).None? {
        var e := d - {"PROPERTIES"};
        var fixed := Some(Gen(RenderMethod(RenderAll)));
        var written := Some(Val(PNone));
        assert BuildShowInstance(dcl, registry, executeAbstract, true) == InstallRender(e, props, dynamic, fixed, registry, executeAbstract);
        assert BuildShowInstanceAsWritten(dcl, registry, executeAbstract) == InstallRender(e, props, dynamic, written, registry, executeAbstract);
        InstallRenderOnlyRender(e, props, dynamic, fixed, written, registry, executeAbstract);
      }
    }
  }

  /** Two choices of the `render` for neither case give the same result in every other entry. */
  lemma InstallRenderOnlyRender(d: ClassDict, props: PyVal, dynamic: bool, n1: Option<Entry>, n2: Option<Entry>,
                                registry: map<(string, string), PyVal>, executeAbstract: bool)
    requires "DYNAMIC_PROPERTIES" !in d && "PROPERTIES" !in d
    requires props == PNone || Iterate(props).Some?
    requires n1.Some? && n2.Some?
    ensures InstallRender(d, props, dynamic, n1, registry, executeAbstract).Success? <==>
            InstallRender(d, props, dynamic, n2, registry, executeAbstract).Success?
    ensures InstallRender(d, props, dynamic, n1, registry, executeAbstract).Failure? ==>
            InstallRender(d, props, dynamic, n1, registry, executeAbstract) == InstallRender(d, props, dynamic, n2, registry, executeAbstract)
    ensures InstallRender(d, props, dynamic, n1, registry, executeAbstract).Success? ==>
            InstallRender(d, props, dynamic, n1, registry, executeAbstract).value - {"render"} ==
            InstallRender(d, props, dynamic, n2, registry, executeAbstract).value - {"render"}
  {
    var b := BuildEndPoint(d, registry, executeAbstract);
    if b.Success? && props == PNone && !dynamic {
      assert b.value["render" := n1.value] - {"render"} == b.value["render" := n2.value] - {"render"};
    }
  }

  /** A checked property renders on an instance without raising: at worst as "UNKNOWN" or "ERROR". */
  lemma CheckedPropertyRenders(p: PyVal, inst: PyVal, call: Call)
    requires ValidProperty(p) && inst.PInstance?
    ensures RenderProp(p, inst, call).Done?
    ensures p.PStr? ==> RenderProp(p, inst, call).value.0 == p
    ensures !p.PStr? ==> RenderProp(p, inst, call).value.0 == p.items[0]
  {
  }

  /** So the `render` installed for checked PROPERTIES never raises on an instance. */
  lemma CheckedPropertiesRender(props: seq<PyVal>, inst: PyVal, call: Call)
    requires forall i :: 0 <= i < |props| ==> ValidProperty(props[i])
    requires inst.PInstance?
    ensures Rendered(RenderWith(props), inst, call).Done?
  {
    forall i | 0 <= i < |props| ensures RenderProp(props[i], inst, call).Done? {
      CheckedPropertyRenders(props[i], inst, call);
    }
  }

  // --------------------------------------------------------- check result

  /**
   * `CheckResultMetaClass.__new__` (lines 321-347): an EXPECT becomes
   * `check_result`, comparing for equality, or calling EXPECT when it is
   * callable, and is deleted; without EXPECT nothing is installed. Then the
   * end-point checks.
   */
  function BuildCheckResult(dcl: ClassDict, registry: map<(string, string), PyVal>, executeAbstract: bool)
    : (r: Result<ClassDict, MetaError>)
    ensures "EXPECT" !in dcl ==> r == BuildEndPoint(dcl, registry, executeAbstract)
  {
    if "EXPECT" in dcl then
      var expected := Get(dcl, "EXPECT", PNone);
      var checker := if Callable(expected) then Predicate(expected) else Equals(expected);
      BuildEndPoint((dcl - {"EXPECT"})["check_result" := Gen(CheckResultMethod(checker))], registry, executeAbstract)
    else BuildEndPoint(dcl, registry, executeAbstract)
  }

  /** A check-result class that was built has no EXPECT left. */
  lemma CheckResultPopsExpect(dcl: ClassDict, registry: map<(string, string), PyVal>, executeAbstract: bool)
    requires BuildCheckResult(dcl, registry, executeAbstract).Success?
    ensures "EXPECT" !in BuildCheckResult(dcl, registry, executeAbstract).value
  {
    if "EXPECT" in dcl {
      var expected := Get(dcl, "EXPECT", PNone);
      var checker := if Callable(expected) then Predicate(expected) else Equals(expected);
      assert "EXPECT" !in (dcl - {"EXPECT"})["check_result" := Gen(CheckResultMethod(checker))];
    }
  }

  /** A declared EXPECT becomes a `check_result` that compares with it, or calls it when it is callable. */
  lemma CheckResultInstalled(dcl: ClassDict, registry: map<(string, string), PyVal>, executeAbstract: bool)
    requires BuildCheckResult(dcl, registry, executeAbstract).Success? && "EXPECT" in dcl
    ensures var r := BuildCheckResult(dcl, registry, executeAbstract).value;
            var expected := Get(dcl, "EXPECT", PNone);
            "check_result" in r &&
            r["check_result"] == Gen(CheckResultMethod(if Callable(expected) then Predicate(expected) else Equals(expected)))
  {
    var expected := Get(dcl, "EXPECT", PNone);
    var checker := if Callable(expected) then Predicate(expected) else Equals(expected);
    var d := (dcl - {"EXPECT"})["check_result" := Gen(CheckResultMethod(checker))];
    assert BuildCheckResult(dcl, registry, executeAbstract) == BuildEndPoint(d, registry, executeAbstract);
    assert "check_result" in d && d["check_result"] == Gen(CheckResultMethod(checker));
  }

  /**
   * A check-result class is built exactly when the end-point checks of the
   * class without EXPECT pass, and fails with their error. A built class
   * differs from the declaration only in EXPECT, `check_result` and what
   * the end-point checks change.
   */
  lemma CheckResultBuildSucceeds(dcl: ClassDict, registry: map<(string, string), PyVal>, executeAbstract: bool)
    ensures var r := BuildCheckResult(dcl, registry, executeAbstract);
            var base := BuildEndPoint(dcl - {"EXPECT"}, registry, executeAbstract);
            (r.Success? <==> base.Success?) && (base.Failure? ==> r == base)
    ensures var r := BuildCheckResult(dcl, registry, executeAbstract);
            r.Success? ==>
              Keeps(dcl, r.value, {"EXPECT", "check_result", "OWN_USAGE", "CALLABLE", "execute"}) &&
              forall k :: k in r.value ==> k in dcl || k in {"__doc__", "get_usage", "has_own_usage", "execute", "check_result"}
  {
    var d := dcl - {"EXPECT"};
    if "EXPECT" in dcl {
      var expected := Get(dcl, "EXPECT", PNone);
      var checker := if Callable(expected) then Predicate(expected) else Equals(expected);
      EndPointIgnores(d, "check_result", Gen(CheckResultMethod(checker)), registry, executeAbstract);
      assert BuildCheckResult(dcl, registry, executeAbstract) == BuildEndPoint(d["check_result" := Gen(CheckResultMethod(checker))], registry, executeAbstract);
    } else {
      assert d == dcl;
    }
  }

  // ----------------------------------------------------------- multiplexers

  /** `is_root_multiplexer`: no base class has the multiplexer metaclass. */
  predicate RootMultiplexer(baseIsMultiplexer: seq<bool>)
  {
    forall i :: 0 <= i < |baseIsMultiplexer| ==> !baseIsMultiplexer[i]
  }

  /** The loop of `is_root_multiplexer` (lines 369-372). */
  method IsRootMultiplexer(baseIsMultiplexer: seq<bool>) returns (r: bool)
    ensures r <==> RootMultiplexer(baseIsMultiplexer)
  {
    for i := 0 to |baseIsMultiplexer|
      invariant forall j :: 0 <= j < i ==> !baseIsMultiplexer[j]
    {
      if baseIsMultiplexer[i] {
        return false;
      }
    }
    return true;
  }

  /** A COMMANDS entry that passes: a command name mapped to a command class. */
  predicate ValidChild(entry: (PyVal, PyVal), isCommandName: string -> bool)
  {
    entry.0.PStr? && isCommandName(entry.0.s) && entry.1.PClass? && entry.1.cls.isCommand
  }

  /**
   * The loop over COMMANDS (lines 387-396), in dictionary order: check each
   * name and class, and give every child that is not an end point the
   * docstring of this class. The result is the dictionary with those
   * docstrings set.
   */
  function CheckChildren(entries: seq<(PyVal, PyVal)>, dcl: ClassDict, isCommandName: string -> bool)
    : (r: Result<seq<(PyVal, PyVal)>, MetaError>)
    requires forall i :: 0 <= i < |entries| ==> entries[i].0.PStr?
    ensures r.Success? ==> |r.value| == |entries|
  {
    if entries == [] then Success([])
    else
      var name := entries[0].0;
      var cmd := entries[0].1;
      if !isCommandName(name.s) then Failure(InvalidName(name.s))
      else if !cmd.PClass? then Failure(Py(TypeError))
      else if !cmd.cls.isCommand then
        Failure(CommandError("COMMANDS dictionary must be composed of LmiCommandBase subclasses, failed class: \"" +
                             cmd.cls.name + "\""))
      else if !cmd.cls.isEndPoint && "__doc__" !in dcl then Failure(Py(KeyError("__doc__")))
      else
        var child := if cmd.cls.isEndPoint then cmd else PClass(cmd.cls.(doc := Get(dcl, "__doc__", PNone)));
        match CheckChildren(entries[1..], dcl, isCommandName)
        case Failure(e) => Failure(e)
        case Success(rest) => Success([(name, child)] + rest)
  }

  /**
   * The check passes exactly when every entry names a command class, and
   * every child that is not an end point can be given the docstring; the
   * children keep their names and classes, in order.
   */
  lemma {:induction false} CheckedChildren(entries: seq<(PyVal, PyVal)>, dcl: ClassDict, isCommandName: string -> bool)
    requires forall i :: 0 <= i < |entries| ==> entries[i].0.PStr?
    ensures CheckChildren(entries, dcl, isCommandName).Success? ==>
              var children := CheckChildren(entries, dcl, isCommandName).value;
              forall i :: 0 <= i < |entries| ==>
                ValidChild(entries[i], isCommandName) && children[i].0 == entries[i].0 &&
                children[i].1.PClass? && children[i].1.cls.name == entries[i].1.cls.name &&
                children[i].1.cls.isEndPoint == entries[i].1.cls.isEndPoint &&
                children[i].1.cls.doc == (if entries[i].1.cls.isEndPoint then entries[i].1.cls.doc else Get(dcl, "__doc__", PNone))
    ensures CheckChildren(entries, dcl, isCommandName).Failure? ==>
              exists k :: 0 <= k < |entries| && !(ValidChild(entries[k], isCommandName) &&
                (entries[k].1.cls.isEndPoint || "__doc__" in dcl))
  {
    if entries != [] {
      var r := CheckChildren(entries, dcl, isCommandName);
      var cmd := entries[0].1;
      if !(ValidChild(entries[0], isCommandName) && (cmd.cls.isEndPoint || "__doc__" in dcl)) {
        if r.Failure? {
          assert !(ValidChild(entries[0], isCommandName) && (entries[0].1.cls.isEndPoint || "__doc__" in dcl));
        }
      } else {
        CheckedChildren(entries[1..], dcl, isCommandName);
        var tail := CheckChildren(entries[1..], dcl, isCommandName);
        if tail.Failure? {
          var k :| 0 <= k < |entries[1..]| && !(ValidChild(entries[1..][k], isCommandName) &&
                     (entries[1..][k].1.cls.isEndPoint || "__doc__" in dcl));
          assert entries[1..][k] == entries[k + 1];
        } else {
          var child := if cmd.cls.isEndPoint then cmd else PClass(cmd.cls.(doc := Get(dcl, "__doc__", PNone)));
          assert r.value == [(entries[0].0, child)] + tail.value;
          forall i | 1 <= i < |entries|
            ensures r.value[i] == tail.value[i - 1] && entries[i] == entries[1..][i - 1]
          {
          }
        }
      }
    }
  }

  /**
   * `MultiplexerMetaClass.__new__` (lines 374-409): a root multiplexer is
   * left alone; any other must have COMMANDS, a dictionary from command
   * names to command classes, which `child_commands` then returns; then
   * OWN_USAGE is handled.
   */
  function BuildMultiplexer(dcl: ClassDict, baseIsMultiplexer: seq<bool>, isCommandName: string -> bool)
    : (r: Result<ClassDict, MetaError>)
    ensures RootMultiplexer(baseIsMultiplexer) ==> r == Success(dcl)
    ensures !RootMultiplexer(baseIsMultiplexer) && "COMMANDS" !in dcl ==>
              r == Failure(CommandError("missing COMMANDS property"))
    ensures !RootMultiplexer(baseIsMultiplexer) && "COMMANDS" in dcl && !Get(dcl, "COMMANDS", PNone).PDict? ==>
              r == Failure(InvalidProperty("COMMANDS must be a dictionary"))
    ensures var cmds := Get(dcl, "COMMANDS", PNone);
            !RootMultiplexer(baseIsMultiplexer) && "COMMANDS" in dcl && cmds.PDict? &&
            !(forall i :: 0 <= i < |cmds.entries| ==> cmds.entries[i].0.PStr?) ==>
              r == Failure(InvalidProperty("keys of COMMANDS dictionary must contain command names as strings"))
  {
    if RootMultiplexer(baseIsMultiplexer) then Success(dcl)
    else if "COMMANDS" !in dcl then Failure(CommandError("missing COMMANDS property"))
    else
      var cmds := Get(dcl, "COMMANDS", PNone);
      var d := dcl - {"COMMANDS"};
      if !cmds.PDict? then Failure(InvalidProperty("COMMANDS must be a dictionary"))
      else if !(forall i :: 0 <= i < |cmds.entries| ==> cmds.entries[i].0.PStr?) then
        Failure(InvalidProperty("keys of COMMANDS dictionary must contain command names as strings"))
      else
        match CheckChildren(cmds.entries, d, isCommandName)
        case Failure(e) => Failure(e)
        case Success(children) =>
          HandleUsage(d["child_commands" := Gen(ChildCommands(PDict(children)))])
  }

  /** An entry other than OWN_USAGE and `__doc__` changes neither whether the usage check passes nor its error. */
  lemma UsageIgnores(d: ClassDict, k: string, e: Entry)
    requires k != "OWN_USAGE" && k != "__doc__"
    ensures HandleUsage(d[k := e]).Success? <==> HandleUsage(d).Success?
    ensures HandleUsage(d).Failure? ==> HandleUsage(d[k := e]) == HandleUsage(d)
  {
    var d' := d[k := e];
    assert Get(d', "OWN_USAGE", PBool(false)) == Get(d, "OWN_USAGE", PBool(false));
    assert ("__doc__" in d') == ("__doc__" in d);
    assert "__doc__" in d ==> d'["__doc__"] == d["__doc__"];
  }

  /** The build of a multiplexer other than the root whose COMMANDS is a dictionary with string keys. */
  lemma MultiplexerUnfold(dcl: ClassDict, baseIsMultiplexer: seq<bool>, isCommandName: string -> bool)
    requires !RootMultiplexer(baseIsMultiplexer) && "COMMANDS" in dcl && Get(dcl, "COMMANDS", PNone).PDict?
    requires var cmds := Get(dcl, "COMMANDS", PNone);
             forall i :: 0 <= i < |cmds.entries| ==> cmds.entries[i].0.PStr?
    ensures var d := dcl - {"COMMANDS"};
            var checked := CheckChildren(Get(dcl, "COMMANDS", PNone).entries, d, isCommandName);
            BuildMultiplexer(dcl, baseIsMultiplexer, isCommandName) ==
              if checked.Failure? then Failure(checked.error)
              else HandleUsage(d["child_commands" := Gen(ChildCommands(PDict(checked.value)))])
  {
  }

  /** The children pass their check exactly when each maps a command name to a command class that can be given the docstring. */
  lemma ChildrenCheckPasses(entries: seq<(PyVal, PyVal)>, dcl: ClassDict, isCommandName: string -> bool)
    requires forall i :: 0 <= i < |entries| ==> entries[i].0.PStr?
    ensures CheckChildren(entries, dcl, isCommandName).Success? <==>
              forall i :: 0 <= i < |entries| ==>
                ValidChild(entries[i], isCommandName) && (entries[i].1.cls.isEndPoint || "__doc__" in dcl)
  {
    CheckedChildren(entries, dcl, isCommandName);
  }

  /**
   * A multiplexer other than the root whose COMMANDS is a dictionary with
   * string keys is built exactly when every entry maps a command name to a
   * command class, every child that is not an end point can be given the
   * docstring, and the usage check of the class passes.
   */
  lemma MultiplexerBuildSucceeds(dcl: ClassDict, baseIsMultiplexer: seq<bool>, isCommandName: string -> bool)
    requires !RootMultiplexer(baseIsMultiplexer) && "COMMANDS" in dcl && Get(dcl, "COMMANDS", PNone).PDict?
    requires var cmds := Get(dcl, "COMMANDS", PNone);
             forall i :: 0 <= i < |cmds.entries| ==> cmds.entries[i].0.PStr?
    ensures var cmds := Get(dcl, "COMMANDS", PNone);
            BuildMultiplexer(dcl, baseIsMultiplexer, isCommandName).Success? <==>
              (forall i :: 0 <= i < |cmds.entries| ==>
                 ValidChild(cmds.entries[i], isCommandName) && (cmds.entries[i].1.cls.isEndPoint || "__doc__" in dcl)) &&
              HandleUsage(dcl - {"COMMANDS"}).Success?
  {
    var cmds := Get(dcl, "COMMANDS", PNone);
    var d := dcl - {"COMMANDS"};
    MultiplexerUnfold(dcl, baseIsMultiplexer, isCommandName);
    ChildrenCheckPasses(cmds.entries, d, isCommandName);
    assert ("__doc__" in d) == ("__doc__" in dcl);
    var checked := CheckChildren(cmds.entries, d, isCommandName);
    if checked.Success? {
      UsageIgnores(d, "child_commands", Gen(ChildCommands(PDict(checked.value))));
    }
  }

  /** Such a multiplexer fails with the error of the first bad COMMANDS entry, or else with that of the usage check. */
  lemma MultiplexerBuildFails(dcl: ClassDict, baseIsMultiplexer: seq<bool>, isCommandName: string -> bool)
    requires !RootMultiplexer(baseIsMultiplexer) && "COMMANDS" in dcl && Get(dcl, "COMMANDS", PNone).PDict?
    requires var cmds := Get(dcl, "COMMANDS", PNone);
             forall i :: 0 <= i < |cmds.entries| ==> cmds.entries[i].0.PStr?
    ensures var checked := CheckChildren(Get(dcl, "COMMANDS", PNone).entries, dcl - {"COMMANDS"}, isCommandName);
            checked.Failure? ==> BuildMultiplexer(dcl, baseIsMultiplexer, isCommandName) == Failure(checked.error)
    ensures var checked := CheckChildren(Get(dcl, "COMMANDS", PNone).entries, dcl - {"COMMANDS"}, isCommandName);
            checked.Success? && HandleUsage(dcl - {"COMMANDS"}).Failure? ==>
              BuildMultiplexer(dcl, baseIsMultiplexer, isCommandName) == HandleUsage(dcl - {"COMMANDS"})
  {
    var d := dcl - {"COMMANDS"};
    var checked := CheckChildren(Get(dcl, "COMMANDS", PNone).entries, d, isCommandName);
    MultiplexerUnfold(dcl, baseIsMultiplexer, isCommandName);
    if checked.Success? {
      UsageIgnores(d, "child_commands", Gen(ChildCommands(PDict(checked.value))));
    }
  }

  /**
   * A built multiplexer differs from the declaration only in COMMANDS,
   * OWN_USAGE, `child_commands` and what the usage check adds.
   */
  lemma MultiplexerBuildKeeps(dcl: ClassDict, baseIsMultiplexer: seq<bool>, isCommandName: string -> bool)
    requires !RootMultiplexer(baseIsMultiplexer) && BuildMultiplexer(dcl, baseIsMultiplexer, isCommandName).Success?
    ensures var r := BuildMultiplexer(dcl, baseIsMultiplexer, isCommandName).value;
            Keeps(dcl, r, {"COMMANDS", "OWN_USAGE", "child_commands"}) &&
            forall k :: k in r ==> k in dcl || k in {"child_commands", "__doc__", "get_usage", "has_own_usage"}
  {
    MultiplexerUnfold(dcl, baseIsMultiplexer, isCommandName);
  }

  /**
   * A multiplexer other than the root that was built has neither COMMANDS
   * nor OWN_USAGE left, and its `child_commands` returns the checked
   * children: the command classes of COMMANDS under their names, in order.
   */
  lemma MultiplexerChildren(dcl: ClassDict, baseIsMultiplexer: seq<bool>, isCommandName: string -> bool)
    requires !RootMultiplexer(baseIsMultiplexer) && BuildMultiplexer(dcl, baseIsMultiplexer, isCommandName).Success?
    ensures var r := BuildMultiplexer(dcl, baseIsMultiplexer, isCommandName).value;
            var cmds := Get(dcl, "COMMANDS", PNone);
            "COMMANDS" !in r && "OWN_USAGE" !in r && cmds.PDict? &&
            "child_commands" in r && r["child_commands"].Gen? && r["child_commands"].g.ChildCommands? &&
            var children := r["child_commands"].g.commands;
            children.PDict? && |children.entries| == |cmds.entries| &&
            forall i :: 0 <= i < |cmds.entries| ==>
              ValidChild(cmds.entries[i], isCommandName) && children.entries[i].0 == cmds.entries[i].0 &&
              children.entries[i].1.PClass? && children.entries[i].1.cls.name == cmds.entries[i].1.cls.name
  {
    var cmds := Get(dcl, "COMMANDS", PNone);
    var d := dcl - {"COMMANDS"};
    var children := CheckChildren(cmds.entries, d, isCommandName).value;
    CheckedChildren(cmds.entries, d, isCommandName);
    var d' := d["child_commands" := Gen(ChildCommands(PDict(children)))];
    MultiplexerUnfold(dcl, baseIsMultiplexer, isCommandName);
    assert "COMMANDS" !in d' && "child_commands" in d';
  }
}
