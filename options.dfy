/**
 * The option binder of lmi/scripts/common/command/command.py: the option
 * names of a parsed usage string become keyword-argument names
 * (`opt_name_sanitize`, `options_dict2kwargs`), which are then bound to the
 * parameters of the associated function (`_make_end_point_args`).
 *
 * A parsed option map is given as its items in dictionary iteration order;
 * the first parameter of the associated function (the connection) is never
 * bound from options.
 */
module Options {
  import opened PyValues

  /** What `re.sub(r'[^a-zA-Z]', '_', .)` followed by `.lower()` makes of one character. */
  function SanitizeChar(c: char): char
  {
    if 'A' <= c <= 'Z' then (c as int + 32) as char
    else if 'a' <= c <= 'z' then c
    else '_'
  }

  /** The characters a sanitised name is made of. */
  predicate IsKeyChar(c: char) { 'a' <= c <= 'z' || c == '_' }

  /**
   * `opt_name_sanitize`: every character that is not an ASCII letter becomes
   * `_`, and letters are lower-cased.
   */
  function Sanitize(name: string): (r: string)
    ensures |r| == |name|
    ensures forall i :: 0 <= i < |r| ==> IsKeyChar(r[i])
    ensures forall i :: 0 <= i < |r| ==> (r[i] == '_' <==> !IsAsciiLetter(name[i]))
    ensures forall i :: 0 <= i < |r| && IsAsciiLetter(name[i]) ==>
              r[i] == name[i] || r[i] as int == name[i] as int + 32
  {
    seq(|name|, i requires 0 <= i < |name| => SanitizeChar(name[i]))
  }

  /** A name made only of lower-case letters and `_` is left as it is. */
  lemma SanitizeFixesKeys(name: string)
    requires forall i :: 0 <= i < |name| ==> IsKeyChar(name[i])
    ensures Sanitize(name) == name
  {
  }

  /** Sanitising twice is sanitising once. */
  lemma SanitizeIdempotent(name: string)
    ensures Sanitize(Sanitize(name)) == Sanitize(name)
  {
    SanitizeFixesKeys(Sanitize(name));
  }

  // The token shapes of lines 46-49, each tested on the whole token.

  /** `^<(?P<name>[^>]+)>$` */
  predicate IsBracketArgument(t: string)
  {
    |t| >= 3 && t[0] == '<' && t[|t| - 1] == '>' &&
    forall i :: 1 <= i < |t| - 1 ==> t[i] != '>'
  }

  predicate IsSeparator(c: char) { c == '_' || c == '-' }

  /** `^(?P<name>[A-Z]+(?:[_-][A-Z]+)*)$` */
  predicate IsUpperArgument(t: string)
  {
    |t| >= 1 && IsAsciiUpper(t[0]) && IsAsciiUpper(t[|t| - 1]) &&
    (forall i :: 0 <= i < |t| ==> IsAsciiUpper(t[i]) || IsSeparator(t[i])) &&
    (forall i :: 0 <= i < |t| - 1 ==> !(IsSeparator(t[i]) && IsSeparator(t[i + 1])))
  }

  /** `^-(?P<name>[a-z])$`, ignoring case */
  predicate IsShortOption(t: string)
  {
    |t| == 2 && t[0] == '-' && IsAsciiLetter(t[1])
  }

  /** `^--(?P<name>[a-z_-]+)$`, ignoring case */
  predicate IsLongOption(t: string)
  {
    |t| >= 3 && t[0] == '-' && t[1] == '-' &&
    forall i :: 2 <= i < |t| ==> IsAsciiLetter(t[i]) || IsSeparator(t[i])
  }

  /**
   * The name `options_dict2kwargs` derives from token `t`, before
   * sanitising: the shapes are tried in order and the first match wins; a
   * bracket or upper-case argument yields its inner name, the other shapes
   * the whole matched text. `isCommandName` is `base.RE_COMMAND_NAME`, which
   * is not part of this model. Python's `$` also matches before a trailing
   * newline, hence `Chomp`.
   */
  function ArgumentName(t: string, isCommandName: string -> bool): Option<string>
  {
    var m := Chomp(t);
    if IsBracketArgument(m) then Some(m[1..|m| - 1])
    else if IsUpperArgument(m) then Some(m)
    else if IsShortOption(m) then Some(m)
    else if IsLongOption(m) then Some(m)
    else if isCommandName(t) then Some(t)
    else None
  }

  /** The keyword-argument name of token `t`, or None when no shape matches. */
  function KeyOf(t: string, isCommandName: string -> bool): Option<string>
  {
    match ArgumentName(t, isCommandName)
    case None => None
    case Some(n) => Some(Sanitize(n))
  }

  /** `<name>` yields the sanitised inner name. */
  lemma BracketArgumentKey(t: string, isCommandName: string -> bool)
    requires IsBracketArgument(Chomp(t))
    ensures KeyOf(t, isCommandName) == Some(Sanitize(Chomp(t)[1..|Chomp(t)| - 1]))
  {
  }

  /** An upper-case argument is its own name, lower-cased, with `-` made `_`. */
  lemma UpperArgumentKey(t: string, isCommandName: string -> bool)
    requires IsUpperArgument(Chomp(t))
    ensures KeyOf(t, isCommandName) == Some(Sanitize(Chomp(t)))
  {
    assert !IsBracketArgument(Chomp(t));
  }

  /** A short option `-x` keeps its dash, which becomes `_`: the key is `_x`, lower-cased. */
  lemma ShortOptionKey(t: string, isCommandName: string -> bool)
    requires IsShortOption(Chomp(t))
    ensures KeyOf(t, isCommandName) == Some(['_', SanitizeChar(Chomp(t)[1])])
  {
    var m := Chomp(t);
    assert !IsBracketArgument(m) && !IsUpperArgument(m);
    assert Sanitize(m) == ['_', SanitizeChar(m[1])];
  }

  /** A long option `--name` keeps its dashes: its key starts with `__` and is the whole option sanitised. */
  lemma LongOptionKey(t: string, isCommandName: string -> bool)
    requires IsLongOption(Chomp(t))
    ensures KeyOf(t, isCommandName) == Some(Sanitize(Chomp(t)))
    ensures Sanitize(Chomp(t))[..2] == "__"
  {
    var m := Chomp(t);
    assert !IsBracketArgument(m) && !IsUpperArgument(m) && !IsShortOption(m);
  }

  /** `--deep` gives `__deep`. */
  lemma DeepOptionKey(isCommandName: string -> bool)
    ensures KeyOf("--deep", isCommandName) == Some("__deep")
  {
    var t := "--deep";
    assert Chomp(t) == t;
    assert IsLongOption(t);
    LongOptionKey(t, isCommandName);
    var r := Sanitize(t);
    assert r[0] == '_' && r[1] == '_' && r[2] == 'd' && r[3] == 'e' && r[4] == 'e' && r[5] == 'p';
    assert r == "__deep";
  }

  /** A token of none of the four shapes is a command name, keyed as a whole, or has no key. */
  lemma CommandNameKey(t: string, isCommandName: string -> bool)
    requires var m := Chomp(t); !IsBracketArgument(m) && !IsUpperArgument(m) && !IsShortOption(m) && !IsLongOption(m)
    ensures isCommandName(t) ==> KeyOf(t, isCommandName) == Some(Sanitize(t))
    ensures !isCommandName(t) ==> KeyOf(t, isCommandName) == None
  {
  }

  /** The first `n` tokens all have a key, and no two of them share one. */
  ghost predicate Convertible(options: seq<(string, PyVal)>, isCommandName: string -> bool, n: nat)
    requires n <= |options|
  {
    (forall i :: 0 <= i < n ==> KeyOf(options[i].0, isCommandName).Some?) &&
    (forall i, j :: 0 <= i < j < n ==> KeyOf(options[i].0, isCommandName) != KeyOf(options[j].0, isCommandName))
  }

  /** The keys of the tokens that have one. */
  ghost function KeysOf(options: seq<(string, PyVal)>, isCommandName: string -> bool, n: nat): set<string>
    requires n <= |options|
  {
    set i | 0 <= i < n && KeyOf(options[i].0, isCommandName).Some? :: KeyOf(options[i].0, isCommandName).value
  }

  /** Some token of the first `n` has key `k` and value `v`. */
  ghost predicate BoundTo(options: seq<(string, PyVal)>, isCommandName: string -> bool, n: nat, k: string, v: PyVal)
    requires n <= |options|
  {
    exists j :: 0 <= j < n && KeyOf(options[j].0, isCommandName) == Some(k) && options[j].1 == v
  }

  /** `kwargs` has exactly one key per token of the first `n`, holding that token's value. */
  ghost predicate Converted(options: seq<(string, PyVal)>, isCommandName: string -> bool, n: nat,
                            kwargs: map<string, PyVal>)
    requires n <= |options|
  {
    kwargs.Keys == KeysOf(options, isCommandName, n) &&
    forall i :: 0 <= i < n && KeyOf(options[i].0, isCommandName).Some? ==>
      kwargs[KeyOf(options[i].0, isCommandName).value] == options[i].1
  }

  /**
   * `e` is what `options_dict2kwargs` raises: the first token that either
   * matches no shape, or whose key an earlier token already has.
   */
  ghost predicate RaisesOn(options: seq<(string, PyVal)>, isCommandName: string -> bool, e: BindError)
  {
    exists j :: 0 <= j < |options| && Convertible(options, isCommandName, j) &&
      match KeyOf(options[j].0, isCommandName)
      case None => e == Unconvertible(options[j].0)
      case Some(k) =>
        exists i :: 0 <= i < j && KeyOf(options[i].0, isCommandName) == Some(k) &&
          e == Clash(options[j].0, options[i].0, k)
  }

  lemma KeysOfStep(options: seq<(string, PyVal)>, isCommandName: string -> bool, n: nat)
    requires n < |options|
    ensures KeysOf(options, isCommandName, n + 1) ==
              KeysOf(options, isCommandName, n) +
              (if KeyOf(options[n].0, isCommandName).Some? then {KeyOf(options[n].0, isCommandName).value} else {})
  {
  }

  lemma InKeysOf(options: seq<(string, PyVal)>, isCommandName: string -> bool, n: nat, i: nat)
    requires i < n <= |options| && KeyOf(options[i].0, isCommandName).Some?
    ensures KeyOf(options[i].0, isCommandName).value in KeysOf(options, isCommandName, n)
  {
  }

  lemma ConvertibleStep(options: seq<(string, PyVal)>, isCommandName: string -> bool, n: nat)
    requires n < |options| && Convertible(options, isCommandName, n)
    requires KeyOf(options[n].0, isCommandName).Some?
    requires forall i :: 0 <= i < n ==> KeyOf(options[i].0, isCommandName) != KeyOf(options[n].0, isCommandName)
    ensures Convertible(options, isCommandName, n + 1)
  {
  }

  /** `options_dict2kwargs` */
  method OptionsToKwargs(options: seq<(string, PyVal)>, isCommandName: string -> bool)
    returns (r: Result<map<string, PyVal>, BindError>)
    ensures r.Success? <==> Convertible(options, isCommandName, |options|)
    ensures r.Success? ==> Converted(options, isCommandName, |options|, r.value)
    ensures r.Failure? ==> RaisesOn(options, isCommandName, r.error)
  {
    var kwargs: map<string, PyVal> := map[];
    var origNames: map<string, string> := map[];
    for n := 0 to |options|
      invariant Convertible(options, isCommandName, n)
      invariant Converted(options, isCommandName, n, kwargs)
      invariant origNames.Keys == kwargs.Keys
      invariant forall i :: 0 <= i < n ==> origNames[KeyOf(options[i].0, isCommandName).value] == options[i].0
    {
      var (name, value) := options[n];
      var newName := KeyOf(name, isCommandName);
      if newName.None? {
        return Failure(Unconvertible(name));
      }
      var key := newName.value;
      if key in kwargs {
        var i :| 0 <= i < n && KeyOf(options[i].0, isCommandName) == Some(key);
        return Failure(Clash(name, origNames[key], key));
      }
      forall i | 0 <= i < n
        ensures KeyOf(options[i].0, isCommandName) != Some(key)
      {
        InKeysOf(options, isCommandName, n, i);
      }
      ConvertibleStep(options, isCommandName, n);
      KeysOfStep(options, isCommandName, n);
      kwargs := kwargs[key := value];
      origNames := origNames[key := name];
    }
    return Success(kwargs);
  }

  /** The elements of a list, as a set. */
  function Elems(s: seq<string>): set<string>
  {
    set x | x in s
  }

  lemma ElemsSnoc(s: seq<string>, i: nat)
    requires i < |s|
    ensures Elems(s[..i + 1]) == Elems(s[..i]) + {s[i]}
  {
    assert s[..i + 1] == s[..i] + [s[i]];
  }

  /** `argspec.args[1:]`: the parameters after the connection. */
  function Targets(params: seq<string>): seq<string>
  {
    if |params| == 0 then [] else params[1..]
  }

  predicate NoDuplicates(s: seq<string>)
  {
    forall i, j :: 0 <= i < j < |s| ==> s[i] != s[j]
  }

  /** A map that binds every key of the options to the value of the token having it. */
  lemma ConvertedBinds(options: seq<(string, PyVal)>, isCommandName: string -> bool,
                       kwargs: map<string, PyVal>)
    requires Converted(options, isCommandName, |options|, kwargs)
    ensures forall k :: k in kwargs ==> BoundTo(options, isCommandName, |options|, k, kwargs[k])
  {
    forall k | k in kwargs
      ensures BoundTo(options, isCommandName, |options|, k, kwargs[k])
    {
      var j :| 0 <= j < |options| && KeyOf(options[j].0, isCommandName).Some? &&
               KeyOf(options[j].0, isCommandName).value == k;
    }
  }

  /**
   * The second half of `_make_end_point_args`, on the converted options
   * `kwargs`: without `**kwargs` the options that are not a target are
   * deleted, then every target is popped into the positional arguments, in
   * order; a target with no option raises.
   */
  method SelectArguments(command: string, kwargs0: map<string, PyVal>, targets: seq<string>,
                         acceptsKwargs: bool)
    returns (r: Result<(seq<PyVal>, map<string, PyVal>), BindError>)
    requires NoDuplicates(targets)
    ensures r.Success? <==> forall p :: p in targets ==> p in kwargs0
    ensures r.Failure? ==>
              exists m :: 0 <= m < |targets| && r.error == Unbound(command, targets[m]) &&
                targets[m] !in kwargs0 && forall l :: 0 <= l < m ==> targets[l] in kwargs0
    ensures r.Success? ==>
              |r.value.0| == |targets| &&
              (forall m :: 0 <= m < |targets| ==> r.value.0[m] == kwargs0[targets[m]])
    ensures r.Success? && acceptsKwargs ==> r.value.1 == kwargs0 - Elems(targets)
    ensures r.Success? && !acceptsKwargs ==> r.value.1 == map[]
  {
    var kwargs := kwargs0;
    if !acceptsKwargs {
      var toRemove: seq<string> := [];
      var pending := kwargs.Keys;
      while pending != {}
        invariant pending <= kwargs.Keys
        invariant forall k :: k in toRemove <==> k in kwargs.Keys - pending && k !in targets
        decreases pending
      {
        var optName :| optName in pending;
        if optName !in targets {
          toRemove := toRemove + [optName];
        }
        pending := pending - {optName};
      }
      for i := 0 to |toRemove|
        invariant kwargs == kwargs0 - Elems(toRemove[..i])
      {
        kwargs := kwargs - {toRemove[i]};
        ElemsSnoc(toRemove, i);
      }
      assert toRemove[..|toRemove|] == toRemove;
      assert kwargs.Keys == kwargs0.Keys * Elems(targets);
    }
    ghost var kept := kwargs;
    var args: seq<PyVal> := [];
    for i := 0 to |targets|
      invariant |args| == i
      invariant forall m :: 0 <= m < i ==> targets[m] in kwargs0 && args[m] == kwargs0[targets[m]]
      invariant kwargs == kept - Elems(targets[..i])
    {
      var argName := targets[i];
      if argName !in kwargs {
        assert argName !in targets[..i];
        return Failure(Unbound(command, argName));
      }
      args := args + [kwargs[argName]];
      kwargs := kwargs - {argName};
      ElemsSnoc(targets, i);
    }
    assert targets[..|targets|] == targets;
    return Success((args, kwargs));
  }

  /**
   * `_make_end_point_args`: the positional arguments for the parameters
   * after the first, in parameter order, and the keyword arguments left over;
   * without `**kwargs` every option the function does not take is dropped.
   * `params` is `argspec.args` and `acceptsKwargs` says whether
   * `argspec.keywords` is set; Python refuses two parameters of one name.
   */
  method MakeEndPointArgs(command: string, options: seq<(string, PyVal)>, params: seq<string>,
                          acceptsKwargs: bool, isCommandName: string -> bool)
    returns (r: Result<(seq<PyVal>, map<string, PyVal>), BindError>)
    requires NoDuplicates(params)
    ensures !Convertible(options, isCommandName, |options|) ==>
              r.Failure? && RaisesOn(options, isCommandName, r.error)
    ensures Convertible(options, isCommandName, |options|) ==>
              (r.Success? <==> forall p :: p in Targets(params) ==> p in KeysOf(options, isCommandName, |options|))
    ensures Convertible(options, isCommandName, |options|) && r.Failure? ==>
              exists m :: 0 <= m < |Targets(params)| && r.error == Unbound(command, Targets(params)[m]) &&
                Targets(params)[m] !in KeysOf(options, isCommandName, |options|) &&
                forall l :: 0 <= l < m ==> Targets(params)[l] in KeysOf(options, isCommandName, |options|)
    ensures r.Success? ==>
              |r.value.0| == |Targets(params)| &&
              (forall m :: 0 <= m < |Targets(params)| ==>
                 BoundTo(options, isCommandName, |options|, Targets(params)[m], r.value.0[m])) &&
              (forall k :: k in r.value.1 ==> BoundTo(options, isCommandName, |options|, k, r.value.1[k]))
    ensures r.Success? && acceptsKwargs ==>
              r.value.1.Keys == KeysOf(options, isCommandName, |options|) - Elems(Targets(params))
    ensures r.Success? && !acceptsKwargs ==> r.value.1 == map[]
  {
    var converted := OptionsToKwargs(options, isCommandName);
    if converted.Failure? {
      return Failure(converted.error);
    }
    var targets := Targets(params);
    assert NoDuplicates(targets);
    ConvertedBinds(options, isCommandName, converted.value);
    r := SelectArguments(command, converted.value, targets, acceptsKwargs);
  }
}
