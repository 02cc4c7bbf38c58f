# LMI command framework: a Dafny model

The project models the core of the LMI scripts command framework
(`lmi/scripts/common/command/`) and one storage command that runs on it. It
proves properties of that model.

- **Option binding** (`options.dfy`, module `Options`). The usage parser
  produces option tokens such as `<device>`, `--deep` and `-a`. They are
  sanitised into keyword-argument names (`opt_name_sanitize`,
  `options_dict2kwargs`). Those names are then bound to the parameters of
  the associated function (`_make_end_point_args`).
- **Dispatch** (`dispatch.dfy`, module `Dispatch`). A multiplexer command
  answers `--help` itself. Otherwise it hands the remaining arguments to
  the child its first argument names (`run`, `run_subcommand`).
- **Descriptor validation** (`meta.py`, modelled in `meta.dfy`, module
  `Meta`). The metaclasses turn a command's class dictionary into a
  command. They:
  - handle OWN_USAGE;
  - resolve CALLABLE into `execute`;
  - check COLUMNS, PROPERTIES and DYNAMIC_PROPERTIES;
  - turn EXPECT into `check_result`;
  - check the COMMANDS of a multiplexer.

  The class dictionary is a value: each metaclass is a function from the
  old dictionary to the new one, or to the error it raises.
- **Generated methods** (`render.dfy`, module `Render`). The `render`
  methods of show-instance commands, and the `check_result` built from
  EXPECT.
- **Session processing** (`sessions.dfy`, module `Sessions`). The
  `process_session` loops of:
  - lister commands, which stop at the first failure;
  - show-instance commands, which collect failures and summarise them;
  - check-result commands. These are modelled as a class holding the
    `results` dictionary that `take_action` fills in, and they report
    passed, failed and unreachable hosts.
- **The storage device tree** (`device_tree.dfy`, module `DeviceTree`).
  `cmd_tree` indexes every storage extent and volume group by id. It then
  walks the dependency edges with an explicit stack. The model proves that
  the stack loop is a recursive depth-first pre-order walk. Consequences of
  that:
  - rows nest one level at a time;
  - no object is expanded twice;
  - a KeyError is raised only for an id that is not indexed.

`values.dfy` (module `PyValues`) holds the Python values, exceptions and
outcomes the rest passes around. `PyEq` is Python's `==` on them, with
booleans equal to integers.

Paths in the table below are relative to the repository root. `command.py`
and `meta.py` live in `lmi/scripts/common/command/`, and `device_cmd.py` in
`commands/storage/lmi/scripts/storage/`.

Where the source and its documentation disagree, the model follows the
source:

- A missing CALLABLE is not an error. `dcl.get('CALLABLE')` yields None and
  no `execute` is installed.
- A show-instance command declared with neither PROPERTIES nor
  DYNAMIC_PROPERTIES gets a `render` of None, not a renderer of all
  properties. See "## Findings".
- A CALLABLE that is neither None nor callable raises AttributeError, not
  LmiCommandInvalidCallable: every builder resolves CALLABLE as written.
  See "## Findings".
- `run` of an end-point or session command returns None, not an exit code:
  `run_with_args` does not return what its call returned.

## Model

| member | source | states |
|---|---|---|
| Options.Sanitize | lmi/scripts/common/command/command.py:53-62 | The result has the input's length and only lower-case letters and `_`. A position is `_` exactly when the input's character there is not an ASCII letter. A letter stays in place, lower-cased. |
| Options.SanitizeFixesKeys | lmi/scripts/common/command/command.py:53-62 | A name already made of lower-case letters and `_` is unchanged. |
| Options.SanitizeIdempotent | lmi/scripts/common/command/command.py:53-62 | Sanitising twice is the same as sanitising once. |
| Options.BracketArgumentKey | lmi/scripts/common/command/command.py:77-91 | Any `<name>` token (a trailing newline aside) has the sanitised inner name as its key. |
| Options.UpperArgumentKey | lmi/scripts/common/command/command.py:77-91 | Any upper-case argument such as `FILE-NAME` has itself, sanitised, as its key. |
| Options.ShortOptionKey | lmi/scripts/common/command/command.py:77-91 | Any short option `-x` has the key `_x`, its letter lower-cased. |
| Options.LongOptionKey | lmi/scripts/common/command/command.py:77-91 | Any long option `--name` has itself, sanitised, as its key, which starts with `__`. |
| Options.DeepOptionKey | lmi/scripts/common/command/command.py:77-91 | `--deep` has the key `__deep`. |
| Options.CommandNameKey | lmi/scripts/common/command/command.py:77-91 | A token of none of the four shapes has itself, sanitised, as its key when it is a command name, and no key otherwise. |
| Options.OptionsToKwargs | lmi/scripts/common/command/command.py:64-97 | Succeeds exactly when every token has a shape and no two tokens share a key. On success the map has one key per token, holding that token's value. On failure the error names the first unconvertible or clashing token. |
| Options.ConvertedBinds | lmi/scripts/common/command/command.py:64-97 | Every key of a converted map holds the value of a token that has that key. |
| Options.SelectArguments | lmi/scripts/common/command/command.py:240-259 | Succeeds exactly when every parameter after the first has an option. Positional arguments follow parameter order. Without `**kwargs` no keyword arguments remain; with it, the options that are not parameters remain. Otherwise the error names the first unbound parameter. |
| Options.MakeEndPointArgs | lmi/scripts/common/command/command.py:226-259 | Options that cannot be converted fail with the conversion error. Otherwise it succeeds exactly when every parameter after the first is some token's key, and fails on the first parameter that is not. Each positional value, and each remaining keyword value, is the value of a token with that key. With `**kwargs`, the remaining keys are the token keys that are not parameters; without it, no keys remain. |
| Dispatch.RunSubcommand | lmi/scripts/common/command/command.py:126-144 | A name that is not a child writes the usage to stderr and returns 1. |
| Dispatch.RunSubcommandAsWritten | lmi/scripts/common/command/command.py:126-144 | As written, no KeyError ever escapes. An unknown name writes the usage to stderr and returns 1. A child that raises KeyError has its output followed by the usage on stderr, and 1 is returned. Any other outcome of the child is returned as it is. |
| Dispatch.ChildKeyErrorMisreported | lmi/scripts/common/command/command.py:138-144 | A child that raises KeyError is reported as an unknown command with exit code 1, where the intended dispatch lets the KeyError through. |
| Dispatch.HelpBeforeDispatch | lmi/scripts/common/command/command.py:155-161 | With `--help`, the usage goes to stdout and the result is 0, whatever the children are. |
| Dispatch.UnknownRunsNothing | lmi/scripts/common/command/command.py:138-144 | An unknown subcommand name gives usage on stderr and exit code 1, whatever the other children are. |
| Dispatch.RunFollowsPath | lmi/scripts/common/command/command.py:146-162 | Along a path of child names, each multiplexer consumes one name. Running the tree is running the command at the end of the path on the arguments left over. |
| Dispatch.AsWrittenAgrees | lmi/scripts/common/command/command.py:126-144 | When no end point of the tree raises KeyError, the as-written dispatch equals the intended one, and neither raises KeyError. |
| Meta.HandleUsage | lmi/scripts/common/command/meta.py:44-82 | Fails exactly when OWN_USAGE is True and `__doc__` is missing (KeyError) or None (the invalid-property message). On success: OWN_USAGE is gone; other entries are kept; new keys are only `__doc__`, `get_usage` and `has_own_usage`. A string OWN_USAGE becomes `__doc__`, or else `get_usage`. `has_own_usage` is added exactly when the usage is the class's own. Without OWN_USAGE set, only OWN_USAGE is removed. |
| Meta.UsageIgnores | lmi/scripts/common/command/meta.py:44-82 | An entry other than OWN_USAGE and `__doc__` changes neither whether the usage check passes nor its error. |
| Meta.CallableRoundTrip | lmi/scripts/common/command/meta.py:38-40 | A well-formed `module:function` string parses back into its two names. |
| Meta.CallableParsed | lmi/scripts/common/command/meta.py:38-40 | Only well-formed strings parse. What they parse into joins back to the string, allowing one trailing newline. |
| Meta.ColonRequired | lmi/scripts/common/command/meta.py:38-40 | A CALLABLE without a colon does not parse. |
| Meta.ImportCallable | lmi/scripts/common/command/meta.py:118-134 | A non-string CALLABLE is kept. A malformed string fails with the invalid-format message. A string naming no known function fails with ImportFailed. Otherwise the result is the named function. |
| Meta.ResolveCallable | lmi/scripts/common/command/meta.py:116-145 | The result is None or callable. A non-string value is accepted exactly when it is None or callable. Import failures pass through. |
| Meta.ResolveCallableAsWritten | lmi/scripts/common/command/meta.py:116-145 | The result is None or callable, and a non-string is accepted exactly when it is None or callable. Import failures pass through. A value that imports but is not callable raises AttributeError, so InvalidCallable comes only from a malformed string. |
| Meta.ResolveCallableDiffers | lmi/scripts/common/command/meta.py:142-145 | Both checks accept the same values and resolve them alike. They differ exactly on a value that imports but is neither None nor callable: AttributeError as written, InvalidCallable as intended. |
| Meta.NonCallableMisreported | lmi/scripts/common/command/meta.py:142-145 | `CALLABLE = 5` raises AttributeError as written, and InvalidCallable as intended. |
| Meta.BuildEndPoint | lmi/scripts/common/command/meta.py:116-150 | Succeeds exactly when the usage and the CALLABLE checks, as written, pass; otherwise fails with the first of their errors, so a non-callable CALLABLE raises AttributeError. With a function and an abstract `execute`: CALLABLE becomes `execute` calling that function. Otherwise CALLABLE is kept. No other entry changes. A missing CALLABLE only handles the usage. |
| Meta.EndPointIgnores | lmi/scripts/common/command/meta.py:116-145 | An entry other than OWN_USAGE, `__doc__` and CALLABLE changes neither whether the end-point checks pass nor the error they raise. |
| Meta.BuildLister | lmi/scripts/common/command/meta.py:168-182 | A COLUMNS that is neither a list nor a tuple, or holds a non-string, fails with its message. |
| Meta.ListerBuildSucceeds | lmi/scripts/common/command/meta.py:168-182 | With a valid or None COLUMNS, the lister is built exactly when the end-point build without COLUMNS succeeds, and fails with its error. On success no entry other than COLUMNS, `get_columns` and the end-point ones changes. |
| Meta.ListerColumnsPopped | lmi/scripts/common/command/meta.py:168-182 | On success COLUMNS is no longer among the class attributes. |
| Meta.ListerColumnsInstalled | lmi/scripts/common/command/meta.py:168-182 | On success a non-None COLUMNS is valid, and `get_columns` returns it. |
| Meta.PropertyError | lmi/scripts/common/command/meta.py:209-220 | An item raises nothing exactly when it is a string or a `(string, callable)` pair. |
| Meta.FirstPropertyError | lmi/scripts/common/command/meta.py:209-220 | No error exactly when every item is valid; otherwise the error is that of the first invalid item. |
| Meta.CheckProperties | lmi/scripts/common/command/meta.py:197-220 | None passes. A non-iterable value raises TypeError. Otherwise the error is that of the first invalid item, and there is none exactly when every item is valid. |
| Meta.ShowInstanceWith | lmi/scripts/common/command/meta.py:287-307 | DYNAMIC_PROPERTIES together with PROPERTIES fails with the mutual-exclusion error. An invalid PROPERTIES fails with its item's error. On success both keys are gone, and `render` renders the checked PROPERTIES, or is the dynamic renderer, or is the given entry for neither (or the class's own `render` is left). |
| Meta.ShowInstanceBuildSucceeds | lmi/scripts/common/command/meta.py:287-307 | The class is built exactly when DYNAMIC_PROPERTIES and PROPERTIES are not both given, PROPERTIES passes its check and the end-point build of the rest succeeds. Past the first two checks it fails with the end-point error. On success no entry other than the two popped keys, `render` and the end-point ones changes. |
| Meta.InstallRender | lmi/scripts/common/command/meta.py:295-304 | Succeeds and fails with the end-point build. On success the `render` of each of the three cases is installed, and no entry other than `render` and the end-point ones changes. |
| Meta.BuildShowInstanceAsWritten | lmi/scripts/common/command/meta.py:295-296 | As written, with neither PROPERTIES nor DYNAMIC_PROPERTIES, `render` is None. |
| Meta.BuildShowInstance | lmi/scripts/common/command/meta.py:222-243 | As intended, with neither: `render` renders all properties when it is still abstract, and the class's own `render` is kept otherwise. |
| Meta.RenderFixOnlyChangesRender | lmi/scripts/common/command/meta.py:287-307 | The correction accepts and refuses the same declarations as the source. It fails in the same way, and differs from the source in nothing but `render`. |
| Meta.CheckedPropertyRenders | lmi/scripts/common/command/meta.py:259-283 | A checked PROPERTIES item renders on any instance without raising, under its own label. |
| Meta.CheckedPropertiesRender | lmi/scripts/common/command/meta.py:259-284 | The render of checked PROPERTIES never raises on an instance. |
| Meta.BuildCheckResult | lmi/scripts/common/command/meta.py:321-347 | Without EXPECT the class is built exactly as an end-point command. |
| Meta.CheckResultBuildSucceeds | lmi/scripts/common/command/meta.py:321-347 | The class is built exactly when the end-point build without EXPECT succeeds, and fails with its error. On success no entry other than EXPECT, `check_result` and the end-point ones changes. |
| Meta.CheckResultPopsExpect | lmi/scripts/common/command/meta.py:321-347 | On success EXPECT is no longer among the class attributes. |
| Meta.CheckResultInstalled | lmi/scripts/common/command/meta.py:321-347 | On success with EXPECT, `check_result` is a predicate check when EXPECT is callable and an equality check against it otherwise. |
| Meta.IsRootMultiplexer | lmi/scripts/common/command/meta.py:369-372 | True exactly when no base class has the multiplexer metaclass. |
| Meta.CheckChildren | lmi/scripts/common/command/meta.py:387-396 | On success there is one checked child per COMMANDS entry. |
| Meta.CheckedChildren | lmi/scripts/common/command/meta.py:387-396 | On success every COMMANDS entry is a command name mapped to a command class. Names, classes and order are kept, and each non-end-point child gets this class's docstring. On failure some entry is invalid, or a non-end-point child meets a missing `__doc__`. |
| Meta.BuildMultiplexer | lmi/scripts/common/command/meta.py:374-409 | A root multiplexer is unchanged. Otherwise a missing COMMANDS, a non-dictionary COMMANDS and a COMMANDS with a non-string key fail with their messages. |
| Meta.MultiplexerBuildSucceeds | lmi/scripts/common/command/meta.py:374-409 | With a dictionary COMMANDS of string keys, the build succeeds exactly when every entry maps a command name to a command class, every non-end-point child can be given the docstring, and the usage check passes. |
| Meta.MultiplexerBuildFails | lmi/scripts/common/command/meta.py:383-409 | It fails with the error of the first bad COMMANDS entry, or else with that of the usage check. |
| Meta.MultiplexerBuildKeeps | lmi/scripts/common/command/meta.py:374-409 | A built multiplexer differs from the declaration only in COMMANDS, OWN_USAGE, `child_commands` and what the usage check adds. |
| Meta.MultiplexerChildren | lmi/scripts/common/command/meta.py:374-409 | On success of a non-root multiplexer, COMMANDS and OWN_USAGE are gone, and `child_commands` returns the checked children in order. |
| Render.RenderProps | lmi/scripts/common/command/meta.py:259-284 | Done exactly when every item renders. Then there is one label and one value per item, in order. Otherwise the exception is that of the first item that raises. |
| Render.RenderWithProperties | lmi/scripts/common/command/meta.py:254-285 | The loop computes exactly the rendering of the properties. |
| Render.UnknownProperty | lmi/scripts/common/command/meta.py:261-266 | A named property that the instance lacks renders as "UNKNOWN" under its own name. |
| Render.FailingRenderFunction | lmi/scripts/common/command/meta.py:269-281 | A pair whose function raises renders as "ERROR" under its label. |
| Render.RenderAllProperties | lmi/scripts/common/command/meta.py:230-243 | Done exactly on an instance: every property, in order, with None shown as an empty string. Otherwise AttributeError. |
| Render.Unpack2 | lmi/scripts/common/command/meta.py:300 | Unpacking succeeds exactly on an iterable of two items, and yields those two items. |
| Render.RenderDynamicProperties | lmi/scripts/common/command/meta.py:298-301 | Computes the dynamic rendering: unpack `(properties, instance)`, then render those properties. |
| Render.DynamicIsStatic | lmi/scripts/common/command/meta.py:298-301 | A dynamic result renders exactly as the same properties declared statically would. |
| Render.CheckResult | lmi/scripts/common/command/meta.py:321-340 | An equality check always returns a boolean. |
| Render.ExpectedPasses | lmi/scripts/common/command/meta.py:335-339 | An equality check passes on its expected value, bare or wrapped in a return value. |
| Render.ZeroAcceptsFalse | lmi/scripts/common/command/meta.py:335-339 | `EXPECT = 0` accepts `False` and rejects `[]`. |
| Render.PredicateDelegates | lmi/scripts/common/command/meta.py:325-333 | A callable EXPECT decides alone, on the unwrapped result. |
| Sessions.ListerHeader | lmi/scripts/common/command/command.py:397-412 | Declared columns head the table unchanged. Without them the first row is the header, which only a non-empty iterator provides. |
| Sessions.ListerHostOutput | lmi/scripts/common/command/command.py:415-423 | What one host writes, and the exception that stops the loop. |
| Sessions.ListerProcessSession | lmi/scripts/common/command/command.py:414-424 | The loop writes and ends exactly as the lister run specifies. |
| Sessions.ListerStopsAtFirstFailure | lmi/scripts/common/command/command.py:414-424 | A lister returns 0 exactly when its action succeeds on every host. Otherwise it raises what the first failing host raised. |
| Sessions.ListerTables | lmi/scripts/common/command/command.py:414-424 | The tables written are exactly those of the hosts before the first failure, each host's own, in order. |
| Sessions.SucceedingTables | lmi/scripts/common/command/command.py:414-424 | One table per host before the first failure, the j-th being host j's. |
| Sessions.ListerHostTables | lmi/scripts/common/command/command.py:415-423 | A host contributes its table exactly when its action succeeds. |
| Sessions.ListerRunCons | lmi/scripts/common/command/command.py:414-424 | A lister run is the first host's output, then either its exception or the run over the remaining hosts. |
| Sessions.StopAtFirstOut | lmi/scripts/common/command/command.py:414-424 | A loop that stops at the first exception appends its writes to what was written before, and ends the same way whatever came before. |
| Sessions.CatchEachWrites | lmi/scripts/common/command/command.py:488-504 | A loop that catches each exception only appends to what was written before. |
| Sessions.CatchEachRecords | lmi/scripts/common/command/command.py:488-504 | The same loop only appends to the failures recorded before. |
| Sessions.ShowLoopCons | lmi/scripts/common/command/command.py:488-504 | The show loop is the first host's output and caught failure, then the loop over the remaining hosts. |
| Sessions.ShowHostOutput | lmi/scripts/common/command/command.py:489-504 | What one host writes, and the exception caught for it. |
| Sessions.ShowProcessSession | lmi/scripts/common/command/command.py:486-510 | The output is every host's output followed by the failure summary, and the result is 0. |
| Sessions.ShowHostPairs | lmi/scripts/common/command/command.py:489-504 | A host shows one instance exactly when its action succeeds. |
| Sessions.ShowAccountsForEveryHost | lmi/scripts/common/command/command.py:486-510 | Every host either shows an instance or is listed as a failure. |
| Sessions.ShowFailuresAreRaised | lmi/scripts/common/command/command.py:493-502 | Every listed failure is a session host, paired with what its action raised. |
| Sessions.ShowFailuresComplete | lmi/scripts/common/command/command.py:493-502 | Every host whose action raises is listed with its exception. |
| Sessions.NoRenderFailsEveryHost | lmi/scripts/common/command/command.py:475-484 | With the `render` of None, every host fails. |
| Sessions.AllPropertiesShowEveryHost | lmi/scripts/common/command/command.py:475-510 | With the renderer of all properties, no host returning an instance fails, and each shows one. This rests on reading `inst.properties` as a dictionary (meta.py line 237). |
| Sessions.ExecuteWithArgs | lmi/scripts/common/command/command.py:206-215 | An end point's `run` returns None when its associated function returns, whatever it returned, and raises what the function raised. |
| Sessions.RunWithArgs | lmi/scripts/common/command/command.py:361-362 | A session command's `run` returns None when `process_session` returns, so its exit code is lost, and raises what it raised. |
| Sessions.ListerRunExit | lmi/scripts/common/command/command.py:361-362 | A lister's `run` returns None exactly when the action succeeds on every host, and otherwise raises the first failing host's exception. |
| Sessions.Verdict | lmi/scripts/common/command/command.py:550-570 | An error implies failure. An exception from the associated function fails with it. An equality check passes by `==` on the unwrapped result. A predicate gets the positional arguments and the unwrapped result: its truth decides, and its exception fails the host. |
| Sessions.StoredResults | lmi/scripts/common/command/command.py:561-563 | A host has a stored result exactly when it had one before or its function returned. The new result wins; other entries are kept. |
| Sessions.PartitionSplitsHosts | lmi/scripts/common/command/command.py:574-577 | Every host lands in exactly one of the passed and failed lists (as multisets). |
| Sessions.PartitionByVerdict | lmi/scripts/common/command/command.py:574-577 | A passed host has a true verdict and no error. A failed host has a false verdict and carries its verdict's error. |
| Sessions.UnconnectedRows | lmi/scripts/common/command/command.py:591-592 | One "failed to connect" row per unreachable host, in order. |
| Sessions.FailedRowsShape | lmi/scripts/common/command/command.py:593-601 | The rows exist exactly when every result the report shows is stored. There is one row per failed host, in order: the exception, "failed", or the expected and the stored result. |
| Sessions.ReportFindsResults | lmi/scripts/common/command/command.py:561-601 | With the results that `take_action` stored, the report never misses one. |
| Sessions.NoFailuresNoReport | lmi/scripts/common/command/command.py:586-588 | With no failed and no unreachable host the check succeeds and writes no report. |
| Sessions.FailureReport | lmi/scripts/common/command/command.py:586-602 | With failures, failed and unreachable hosts are counted together, and the report lists the unreachable first, then the failed in order. |
| Sessions.ReportEntries | lmi/scripts/common/command/command.py:590-601 | The report entries are one row per unreachable host, then the failed hosts' rows, in order. |
| Sessions.DebugOnlyInvocations | lmi/scripts/common/command/command.py:578-583 | The debug lines all report invocation failures. |
| Sessions.CheckResultCommand.constructor | lmi/scripts/common/command/command.py:529-532 | A new command has no stored results. |
| Sessions.CheckResultCommand.TakeAction | lmi/scripts/common/command/command.py:550-570 | Returns the host's verdict, and stores the result exactly when the function returned. |
| Sessions.CheckResultCommand.ReportRows | lmi/scripts/common/command/command.py:590-601 | The report rows for the unreachable and the failed hosts. |
| Sessions.CheckResultCommand.ProcessSession | lmi/scripts/common/command/command.py:572-602 | `results` ends as every host's returned result stored over the old ones. The output is exactly the specified check output. |
| DeviceTree.ObjInfo | commands/storage/lmi/scripts/storage/device_cmd.py:94-104 | The info is led by the object's id, and is device info exactly for an extent. |
| DeviceTree.IndexKeys | commands/storage/lmi/scripts/storage/device_cmd.py:125-132 | The index holds every object's id and nothing else. |
| DeviceTree.IndexLastWins | commands/storage/lmi/scripts/storage/device_cmd.py:125-132 | An id maps to the last object having it. |
| DeviceTree.IndexConsistent | commands/storage/lmi/scripts/storage/device_cmd.py:125-132 | Every object is filed under its own id. |
| DeviceTree.BuildIndex | commands/storage/lmi/scripts/storage/device_cmd.py:125-132 | The two loops build the index of extents, then volume groups. |
| DeviceTree.Children | commands/storage/lmi/scripts/storage/device_cmd.py:173 | A child is listed exactly when there is an edge to it from the id. |
| DeviceTree.Visit | commands/storage/lmi/scripts/storage/device_cmd.py:160-175 | A walk only adds to the shown set. |
| DeviceTree.VisitAll | commands/storage/lmi/scripts/storage/device_cmd.py:160-175 | A sequence of walks only adds to the shown set. |
| DeviceTree.Pushed | commands/storage/lmi/scripts/storage/device_cmd.py:174-175 | Pushing in reverse puts the first child on top of the stack. |
| DeviceTree.DrainVisit | commands/storage/lmi/scripts/storage/device_cmd.py:160-175 | Draining a stack whose top is an id walks that id recursively, then drains the rest. |
| DeviceTree.DrainPushed | commands/storage/lmi/scripts/storage/device_cmd.py:160-175 | Draining children pushed in reverse visits them in edge order. |
| DeviceTree.PushChildren | commands/storage/lmi/scripts/storage/device_cmd.py:174-175 | The stack gains the children in reverse, one level deeper, so the first child ends on top. |
| DeviceTree.WalkStep | commands/storage/lmi/scripts/storage/device_cmd.py:160-175 | One pass on an indexed id yields the row that draining puts first, and leaves what draining continues with. Each pass either shows a new id or shortens the stack. |
| DeviceTree.WalkQueue | commands/storage/lmi/scripts/storage/device_cmd.py:160-175 | The stack loop yields the rows, and raises for the id, that draining specifies. |
| DeviceTree.Primordials | commands/storage/lmi/scripts/storage/device_cmd.py:155-157 | Exactly the primordial ids, in iteration order. |
| DeviceTree.PrimordialQueue | commands/storage/lmi/scripts/storage/device_cmd.py:151-157 | The initial stack is the primordial devices at level 0. |
| DeviceTree.CmdTree | commands/storage/lmi/scripts/storage/device_cmd.py:119-175 | `cmd_tree` yields the rows of the recursive pre-order walk from the start ids. It stops at the id whose lookup fails. |
| DeviceTree.VisitNested | commands/storage/lmi/scripts/storage/device_cmd.py:160-175 | A walk's rows start at its level, and each row is at most one level below the previous. |
| DeviceTree.VisitAllNested | commands/storage/lmi/scripts/storage/device_cmd.py:160-175 | The same nesting holds for a sequence of walks. |
| DeviceTree.VisitMissing | commands/storage/lmi/scripts/storage/device_cmd.py:160-175 | A walk raises only for an unindexed id. It never raises from an indexed id when every edge leads to an indexed object. |
| DeviceTree.VisitAllMissing | commands/storage/lmi/scripts/storage/device_cmd.py:160-175 | The same holds for a sequence of walks. |
| DeviceTree.VisitExpandsOnce | commands/storage/lmi/scripts/storage/device_cmd.py:165-172 | A walk expands each id at most once, never one shown before, and adds exactly the ids it expands to the shown set. |
| DeviceTree.VisitAllExpandsOnce | commands/storage/lmi/scripts/storage/device_cmd.py:165-172 | The same holds for a sequence of walks. |
| DeviceTree.CmdTreeShape | commands/storage/lmi/scripts/storage/device_cmd.py:119-175 | Rows nest from level 0 and no object is expanded twice. A KeyError is raised only for an unindexed id, and none is raised when every start id and edge is indexed. |

## Left out

- **The usage parser** (`docopt`, `_parse_args`) and the verify and transform-options hooks of `run` (command.py:323-336):
  - whether `--help` was given is a predicate of the multiplexer over its arguments;
  - option tokens are an input sequence;
  - docopt's own rejection of arguments that do not match the usage is not modelled. An empty argument list therefore reaches `args[0]` and raises IndexError.
- **Not modelled for argument types.** The `isinstance` TypeErrors of `run` and `run_subcommand` for arguments that are not strings or lists: the model's types exclude those arguments.
- **Logging**, the `LOG()` calls: they do not affect results.
- **Formatters and the output stream.** What is written is a sequence of records (banner, separator, table, pairs, report, counts), not formatted text.
- **Generators that raise midway.** A lister's stream is a finite row sequence plus a flag saying whether it is an iterator.
- **Python's import machinery** is a registry map from `(module, function)` to a value.
- **`inspect.getargspec`** is a parameter list plus a flag for `**kwargs`.
- **`util.is_abstract_method`** is a boolean parameter.
- **`base.RE_COMMAND_NAME`** is an abstract predicate on names: `base.py` is not part of this model.
- **Dictionary iteration order** is an explicit input sequence: the option items, the COMMANDS entries, the device index.
- **In-place mutation.** The metaclasses mutate the class dictionary and the child classes in place. A child's `__doc__` changes even when a later COMMANDS entry fails. The model works on values and returns the new dictionary or the error.
- **`Meta.BuildEndPoint`: the `except KeyError` branch** (meta.py:135-141) is not modelled. A KeyError in the `try` comes from a missing `__module__`, which Python always sets, or from module code run by `__import__` (lines 129-131), which line 132 does not catch. Such an exception is outside the registry abstraction: the model's import is a lookup that succeeds or fails with ImportFailed. The branch itself would then raise again, since `mod` is the module's name as a string: AttributeError at line 139 or TypeError at line 141.
- **DeviceTree.CmdTree** takes the `<device>` argument as an already resolved storage object. In the source it is the option string: `Tree` has no `transform_options`, and `run` (command.py:331-336) passes the options on unchanged. So `get_obj_id` (device_cmd.py:100-104, called at line 152) reads `.DeviceID` or `.InstanceID` of a string and raises. The source never resolves the name, so its device-given branch cannot reach the walk; the model does not capture that failure.
- **The multiplexer's warning** for a missing docstring (meta.py:403-405): logging only.
- **Sessions:**
  - the session is a host list plus the `multi` flag (`len(session) > 1`), and the unreachable hosts are a list;
  - the verbosity levels are the `infoOn` and `debugOn` flags;
  - the ShowInstance failure log line is not modelled.
- **Not modelled from `device_cmd.py`:** `size2str`, the CIM queries that produce the extents, volume groups and dependency edges (these are inputs), and `cmd_show`, `list`, `cmd_depends` and `cmd_provides`.
- **`raid_cmd.py`** is not part of this model.
- **A user-defined `render` or `check_result`** that overrides the generated one: the model uses only the generated ones.
- **Render.RenderAllProperties** reads `inst.properties` as the instance's dictionary of property names and values, as line 237 of meta.py does. Line 263 calls `inst.properties()` as a method; under that reading `.items()` would raise AttributeError, which the model does not capture, so Sessions.AllPropertiesShowEveryHost holds only under the first reading.
- **Options.ArgumentName** tests `base.RE_COMMAND_NAME` on the whole token and keys a command name by the whole token. `RE_COMMAND_NAME.match` could match a shorter prefix, whose `group(0)` would then be the name; the pattern lives in `base.py`, which is not part of this model.
- **Python string formatting** of the mismatch message (`"failed (%s != %s)"`) is the record `Mismatch(expected, actual)`.

## Findings

| source | as written | input that shows it | evidently intended | confidence | as-written member | corrected member |
|---|---|---|---|---|---|---|
| lmi/scripts/common/command/command.py:138-144 | The `try` around the child lookup also encloses the child's `run`. A KeyError that the child raises is reported as "unexpected command": usage on stderr, exit code 1. | A `storage tree` end point whose device lookup raises `KeyError('sda9')`. | Only an unknown subcommand name is reported as such; the child's own exceptions propagate. | high, not executed | Dispatch.RunSubcommandAsWritten / Dispatch.ChildKeyErrorMisreported | Dispatch.RunSubcommand |
| lmi/scripts/common/command/meta.py:142-145 | The message for a non-callable CALLABLE reads `func.__module__` and `func.__name__`, which a plain value does not have. | `CALLABLE = 5` | LmiCommandInvalidCallable is raised for any non-callable value. The builders follow the code as written; the correction would change only which exception is raised. | high, not executed | Meta.ResolveCallableAsWritten / Meta.NonCallableMisreported | Meta.ResolveCallable / Meta.ResolveCallableDiffers |
| lmi/scripts/common/command/meta.py:295-296 | `_make_render_all_properties` installs `render` into the dictionary itself and returns None. Line 296 then stores that None as `render`. | A show-instance command with neither PROPERTIES nor DYNAMIC_PROPERTIES. Every host then fails with TypeError. | The call is made for its effect: the renderer of all properties stays installed. Every host then shows its instance if `inst.properties` is a dictionary, the reading line 237 makes; line 263 calls it as a method, and under that reading line 237 raises AttributeError on every host too. | high, not executed | Meta.BuildShowInstanceAsWritten / Sessions.NoRenderFailsEveryHost | Meta.BuildShowInstance / Sessions.AllPropertiesShowEveryHost |
