/**
 * Dispatch through a tree of commands (lmi/scripts/common/command/command.py,
 * `LmiCommandMultiplexer.run` and `run_subcommand`): a multiplexer answers
 * `--help` itself, and otherwise hands the arguments after the first to the
 * child command the first argument names.
 *
 * The usage parser is not part of this model: whether `--help` was given is
 * a predicate of the multiplexer over its arguments. An end-point command is
 * an oracle from its arguments to what it writes and how it ends.
 */
module Dispatch {
  import opened PyValues

  datatype Write = Stdout(text: string) | Stderr(text: string)

  /** What a `run` call wrote, in order, and how it ended. */
  datatype Outcome = Outcome(out: seq<Write>, status: Status)

  datatype Command =
    | Multiplexer(usage: string, helpGiven: seq<string> -> bool, children: map<string, Command>)
    | EndPoint(run: seq<string> -> Outcome)

  /** `LmiCommandMultiplexer.run` (lines 146-162), and `run` of an end point. */
  function Run(cmd: Command, args: seq<string>): Outcome
    decreases cmd, 1
  {
    match cmd
    case EndPoint(run) => run(args)
    case Multiplexer(usage, helpGiven, _) =>
      if helpGiven(args) then Outcome([Stdout(usage)], Returned(Some(0)))
      else if args == [] then Outcome([], Raised(IndexError))
      else RunSubcommand(cmd, args[0], args[1..])
  }

  /**
   * `run_subcommand` (lines 126-144) as evidently intended: a name that is
   * not a child writes the usage to stderr and returns 1; a child's own
   * exceptions pass through.
   */
  function RunSubcommand(mux: Command, name: string, args: seq<string>): (r: Outcome)
    requires mux.Multiplexer?
    ensures name !in mux.children ==> r == Outcome([Stderr(mux.usage)], Returned(Some(1)))
    decreases mux, 0
  {
    if name !in mux.children then Outcome([Stderr(mux.usage)], Returned(Some(1)))
    else Run(mux.children[name], args)
  }

  /**
   * `run_subcommand` as written: the `try` also encloses the child's `run`,
   * so a KeyError the child raises is reported like an unknown name, after
   * whatever the child wrote.
   */
  function RunSubcommandAsWritten(mux: Command, name: string, args: seq<string>): (r: Outcome)
    requires mux.Multiplexer?
    ensures !(r.status.Raised? && r.status.exc.KeyError?)
    ensures name !in mux.children ==> r == Outcome([Stderr(mux.usage)], Returned(Some(1)))
    ensures name in mux.children ==>
              var o := RunAsWritten(mux.children[name], args);
              (o.status.Raised? && o.status.exc.KeyError? ==> r == Outcome(o.out + [Stderr(mux.usage)], Returned(Some(1)))) &&
              (!(o.status.Raised? && o.status.exc.KeyError?) ==> r == o)
    decreases mux, 0
  {
    if name !in mux.children then Outcome([Stderr(mux.usage)], Returned(Some(1)))
    else
      var o := RunAsWritten(mux.children[name], args);
      if o.status.Raised? && o.status.exc.KeyError? then Outcome(o.out + [Stderr(mux.usage)], Returned(Some(1)))
      else o
  }

  function RunAsWritten(cmd: Command, args: seq<string>): Outcome
    decreases cmd, 1
  {
    match cmd
    case EndPoint(run) => run(args)
    case Multiplexer(usage, helpGiven, _) =>
      if helpGiven(args) then Outcome([Stdout(usage)], Returned(Some(0)))
      else if args == [] then Outcome([], Raised(IndexError))
      else RunSubcommandAsWritten(cmd, args[0], args[1..])
  }

  /** An end point that looks up a missing device id, as `cmd_tree` does on a dangling edge. */
  function LookupFails(args: seq<string>): Outcome
  {
    Outcome([], Raised(KeyError("sda9")))
  }

  function Storage(): Command
  {
    Multiplexer("usage", (args: seq<string>) => false, map["tree" := EndPoint(LookupFails)])
  }

  /**
   * The KeyError of a child's lookup comes out of the multiplexer as
   * "unexpected command", usage on stderr and exit code 1, where the
   * intended dispatch lets it through.
   */
  lemma ChildKeyErrorMisreported()
    ensures RunAsWritten(Storage(), ["tree"]) == Outcome([Stderr("usage")], Returned(Some(1)))
    ensures Run(Storage(), ["tree"]) == Outcome([], Raised(KeyError("sda9")))
  {
    assert ["tree"][1..] == [];
  }

  /** `--help` writes the usage to stdout and returns 0, whatever the children are. */
  lemma HelpBeforeDispatch(usage: string, helpGiven: seq<string> -> bool, c1: map<string, Command>,
                           c2: map<string, Command>, args: seq<string>)
    requires helpGiven(args)
    ensures Run(Multiplexer(usage, helpGiven, c1), args) == Outcome([Stdout(usage)], Returned(Some(0)))
    ensures Run(Multiplexer(usage, helpGiven, c1), args) == Run(Multiplexer(usage, helpGiven, c2), args)
  {
  }

  /** An unknown subcommand runs no child: the outcome does not depend on the other children. */
  lemma UnknownRunsNothing(usage: string, helpGiven: seq<string> -> bool, c1: map<string, Command>,
                           c2: map<string, Command>, name: string, args: seq<string>)
    requires name !in c1 && name !in c2 && !helpGiven([name] + args)
    ensures Run(Multiplexer(usage, helpGiven, c1), [name] + args) == Outcome([Stderr(usage)], Returned(Some(1)))
    ensures Run(Multiplexer(usage, helpGiven, c1), [name] + args) == Run(Multiplexer(usage, helpGiven, c2), [name] + args)
  {
    assert ([name] + args)[0] == name && ([name] + args)[1..] == args;
  }

  /** The command `names` leads to from `cmd`, following child names. */
  function Lookup(cmd: Command, names: seq<string>): Option<Command>
    decreases names
  {
    if names == [] then Some(cmd)
    else if cmd.EndPoint? || names[0] !in cmd.children then None
    else Lookup(cmd.children[names[0]], names[1..])
  }

  /** Along `names`, every command is a multiplexer that has the next name as a child and sees no `--help`. */
  predicate Routes(cmd: Command, names: seq<string>, rest: seq<string>)
    decreases names
  {
    names == [] ||
    (cmd.Multiplexer? && !cmd.helpGiven(names + rest) && names[0] in cmd.children &&
     Routes(cmd.children[names[0]], names[1..], rest))
  }

  /**
   * Each multiplexer consumes one name: running the tree on a path of names
   * that routes is running the command at the end of the path on what is left.
   */
  lemma {:induction false} RunFollowsPath(cmd: Command, names: seq<string>, rest: seq<string>)
    requires Routes(cmd, names, rest)
    ensures Lookup(cmd, names).Some?
    ensures Run(cmd, names + rest) == Run(Lookup(cmd, names).value, rest)
    decreases names
  {
    if names != [] {
      assert (names + rest)[0] == names[0];
      assert (names + rest)[1..] == names[1..] + rest;
      RunFollowsPath(cmd.children[names[0]], names[1..], rest);
    } else {
      assert names + rest == rest;
    }
  }

  /** Off the KeyError path the two versions agree: only a child's KeyError is rewritten. */
  lemma {:induction false} AsWrittenAgrees(cmd: Command, args: seq<string>)
    requires forall names :: Lookup(cmd, names).Some? && Lookup(cmd, names).value.EndPoint? ==>
               forall a :: !Lookup(cmd, names).value.run(a).status.Raised? ||
                           !Lookup(cmd, names).value.run(a).status.exc.KeyError?
    ensures RunAsWritten(cmd, args) == Run(cmd, args)
    ensures !Run(cmd, args).status.Raised? || !Run(cmd, args).status.exc.KeyError?
    decreases cmd
  {
    if cmd.Multiplexer? && !cmd.helpGiven(args) && args != [] && args[0] in cmd.children {
      var child := cmd.children[args[0]];
      forall names | Lookup(child, names).Some? && Lookup(child, names).value.EndPoint?
        ensures forall a :: !Lookup(child, names).value.run(a).status.Raised? ||
                            !Lookup(child, names).value.run(a).status.exc.KeyError?
      {
        assert Lookup(cmd, [args[0]] + names) == Lookup(child, names) by {
          assert ([args[0]] + names)[1..] == names;
        }
      }
      AsWrittenAgrees(child, args[1..]);
    } else if cmd.EndPoint? {
      assert Lookup(cmd, []) == Some(cmd);
      assert !cmd.run(args).status.Raised? || !cmd.run(args).status.exc.KeyError?;
    }
  }
}
