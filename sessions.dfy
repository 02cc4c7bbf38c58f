/**
 * The `take_action` and `process_session` methods of the session commands
 * of lmi/scripts/common/command/command.py: each runs the associated
 * function once per connected host of the session and writes what it made
 * of the results.
 *
 * A session is the sequence of its connected hosts, in iteration order,
 * plus the hosts it failed to connect to; `multi` is `len(session) > 1`.
 * The associated function, applied to a host with the command's arguments,
 * is the oracle `execute`. What the commands write to standard output, and
 * what they hand to their formatter, is a sequence of records.
 */
module Sessions {
  import opened PyValues
  import opened Render

  /** What a failure report says about a host. */
  datatype Reason =
    | Error(exc: Exc)                            // the exception itself
    | Text(text: string)                         // a fixed message
    | Mismatch(expected: PyVal, actual: PyVal)   // "failed (<expected> != <actual>)"

  datatype Record =
    | Banner(host: string)                              // the "Host: ..." header between rules
    | Separator                                         // the blank line after a host's output
    | Table(columns: PyVal, rows: seq<PyVal>)           // a lister's table
    | Pairs(labels: seq<PyVal>, values: seq<PyVal>)     // a rendered instance
    | InvocationFailed(host: string, exc: Exc)          // a check-result debug line
    | SuccessCount(n: nat)                              // "Successful runs: n"
    | FailureCount(n: nat)                              // "There were n unsuccessful runs on hosts:"
    | Report(header: (string, string), entries: seq<(string, Reason)>)  // a failure table

  /** A host's output, between its banner and the blank line when the session has several hosts. */
  function Framed(host: string, multi: bool, body: seq<Record>): seq<Record>
  {
    (if multi then [Banner(host)] else []) + body + (if multi then [Separator] else [])
  }

  // ---------------------------------------------------------------- Lister

  /**
   * What a lister's associated function returns: its rows, and whether it
   * is an iterator (a generator) that `next` can be applied to.
   */
  datatype Stream = Stream(rows: seq<PyVal>, isIterator: bool)

  /**
   * `LmiLister.take_action` (lines 397-412): the column names and the rows.
   * Without COLUMNS (`columns` is None) the first row is taken as the
   * column names with `next`, which only an iterator allows.
   */
  function ListerAction(columns: PyVal, res: Attempt<Stream>): Attempt<(PyVal, seq<PyVal>)>
  {
    match res
    case Threw(e) => Threw(e)
    case Done(s) =>
      if columns != PNone then Done((columns, s.rows))
      else if !s.isIterator then Threw(TypeError)
      else if s.rows == [] then Threw(StopIteration)
      else Done((s.rows[0], s.rows[1..]))
  }

  /** Declared columns head the table as they are; without them the first row is the header and the rest the data. */
  lemma ListerHeader(columns: PyVal, s: Stream)
    ensures columns != PNone ==> ListerAction(columns, Done(s)) == Done((columns, s.rows))
    ensures columns == PNone ==>
              (ListerAction(columns, Done(s)).Done? <==> s.isIterator && s.rows != []) &&
              (ListerAction(columns, Done(s)).Done? ==>
                 [ListerAction(columns, Done(s)).value.0] + ListerAction(columns, Done(s)).value.1 == s.rows)
    ensures columns == PNone && !s.isIterator ==> ListerAction(columns, Done(s)) == Threw(TypeError)
    ensures columns == PNone && s.isIterator && s.rows == [] ==> ListerAction(columns, Done(s)) == Threw(StopIteration)
  {
    if columns == PNone && s.isIterator && s.rows != [] {
      assert [s.rows[0]] + s.rows[1..] == s.rows;
    }
  }

  /**
   * What one pass of the loop of `LmiLister.process_session` writes for a
   * host, and the exception that ends the loop there, if any.
   */
  function ListerHost(host: string, multi: bool, columns: PyVal, res: Attempt<Stream>): (seq<Record>, Option<Exc>)
  {
    match ListerAction(columns, res)
    case Threw(e) => ((if multi then [Banner(host)] else []), Some(e))
    case Done(t) => (Framed(host, multi, [Table(t.0, t.1)]), None)
  }

  /** What one pass of a loop writes for a host, and the exception it raised, if any. */
  type Step = string -> (seq<Record>, Option<Exc>)

  /**
   * A loop over `todo`, after `out` is written, that stops at the first
   * exception and propagates it; it returns 0 when no pass raised.
   */
  function StopAtFirst(out: seq<Record>, todo: seq<string>, step: Step): (seq<Record>, Status)
    decreases |todo|
  {
    if todo == [] then (out, Returned(Some(0)))
    else if step(todo[0]).1.Some? then (out + step(todo[0]).0, Raised(step(todo[0]).1.value))
    else StopAtFirst(out + step(todo[0]).0, todo[1..], step)
  }

  /** What such a loop writes follows what was written before it; how it ends does not depend on that. */
  lemma {:induction false} StopAtFirstOut(out: seq<Record>, todo: seq<string>, step: Step)
    ensures StopAtFirst(out, todo, step).0 == out + StopAtFirst([], todo, step).0
    ensures StopAtFirst(out, todo, step).1 == StopAtFirst([], todo, step).1
    decreases |todo|
  {
    if todo == [] {
      assert out + [] == out;
    } else {
      var first := step(todo[0]).0;
      assert [] + first == first;
      if step(todo[0]).1.None? {
        StopAtFirstOut(out + first, todo[1..], step);
        StopAtFirstOut(first, todo[1..], step);
        var rest := StopAtFirst([], todo[1..], step).0;
        assert (out + first) + rest == out + (first + rest);
      }
    }
  }

  /** A loop that stops at the first exception is the first pass, then, unless it raised, the loop over the rest. */
  lemma StopAtFirstCons(todo: seq<string>, step: Step)
    requires todo != []
    ensures step(todo[0]).1.Some? ==> StopAtFirst([], todo, step) == (step(todo[0]).0, Raised(step(todo[0]).1.value))
    ensures step(todo[0]).1.None? ==>
              StopAtFirst([], todo, step) ==
                (step(todo[0]).0 + StopAtFirst([], todo[1..], step).0, StopAtFirst([], todo[1..], step).1)
  {
    assert [] + step(todo[0]).0 == step(todo[0]).0;
    if step(todo[0]).1.None? {
      StopAtFirstOut(step(todo[0]).0, todo[1..], step);
    }
  }

  /** One pass of the loop of `LmiLister.process_session`. */
  function ListerStep(multi: bool, columns: PyVal, execute: string -> Attempt<Stream>): Step
  {
    host => ListerHost(host, multi, columns, execute(host))
  }

  /** `LmiLister.process_session` (lines 414-424): what the loop writes, and how it ends. */
  function ListerRun(hosts: seq<string>, multi: bool, columns: PyVal, execute: string -> Attempt<Stream>)
    : (seq<Record>, Status)
  {
    StopAtFirst([], hosts, ListerStep(multi, columns, execute))
  }

  /** A lister run is the first host's output, then, unless it raised, the run over the other hosts. */
  lemma ListerRunCons(todo: seq<string>, multi: bool, columns: PyVal, execute: string -> Attempt<Stream>)
    requires todo != []
    ensures ListerHost(todo[0], multi, columns, execute(todo[0])).1.Some? ==>
              ListerRun(todo, multi, columns, execute) ==
                (ListerHost(todo[0], multi, columns, execute(todo[0])).0,
                 Raised(ListerHost(todo[0], multi, columns, execute(todo[0])).1.value))
    ensures ListerHost(todo[0], multi, columns, execute(todo[0])).1.None? ==>
              ListerRun(todo, multi, columns, execute) ==
                (ListerHost(todo[0], multi, columns, execute(todo[0])).0 + ListerRun(todo[1..], multi, columns, execute).0,
                 ListerRun(todo[1..], multi, columns, execute).1)
  {
    StopAtFirstCons(todo, ListerStep(multi, columns, execute));
  }

  /** `LmiLister.take_action` (lines 397-412) and the writes around it, for one host. */
  method ListerHostOutput(host: string, multi: bool, columns: PyVal, res: Attempt<Stream>)
    returns (out: seq<Record>, err: Option<Exc>)
    ensures (out, err) == ListerHost(host, multi, columns, res)
  {
    out := if multi then [Banner(host)] else [];
    if res.Threw? {
      return out, Some(res.exc);
    }
    var names := columns;
    var rows := res.value.rows;
    if names == PNone {
      if !res.value.isIterator {
        return out, Some(TypeError);
      }
      if rows == [] {
        return out, Some(StopIteration);
      }
      names := rows[0];
      rows := rows[1..];
    }
    out := out + [Table(names, rows)] + (if multi then [Separator] else []);
    err := None;
  }

  /** The loop of `LmiLister.process_session` (lines 414-424). */
  method ListerProcessSession(hosts: seq<string>, multi: bool, columns: PyVal, execute: string -> Attempt<Stream>)
    returns (out: seq<Record>, status: Status)
    ensures (out, status) == ListerRun(hosts, multi, columns, execute)
  {
    out := [];
    var todo := hosts;
    while todo != []
      invariant StopAtFirst(out, todo, ListerStep(multi, columns, execute)) == ListerRun(hosts, multi, columns, execute)
    {
      var written, err := ListerHostOutput(todo[0], multi, columns, execute(todo[0]));
      assert (written, err) == ListerStep(multi, columns, execute)(todo[0]);
      if err.Some? {
        return out + written, Raised(err.value);
      }
      out := out + written;
      todo := todo[1..];
    }
    status := Returned(Some(0));
  }

  /** How many hosts, from the first, the lister's action succeeds on. */
  function Succeeding(hosts: seq<string>, columns: PyVal, execute: string -> Attempt<Stream>): (n: nat)
    ensures n <= |hosts|
    ensures forall j :: 0 <= j < n ==> ListerAction(columns, execute(hosts[j])).Done?
    ensures n < |hosts| ==> ListerAction(columns, execute(hosts[n])).Threw?
  {
    if hosts == [] || ListerAction(columns, execute(hosts[0])).Threw? then 0
    else 1 + Succeeding(hosts[1..], columns, execute)
  }

  /** The tables among the records, in order. */
  function Tables(out: seq<Record>): (r: seq<Record>)
    ensures forall k :: 0 <= k < |r| ==> r[k].Table?
  {
    if out == [] then [] else (if out[0].Table? then [out[0]] else []) + Tables(out[1..])
  }

  lemma {:induction false} TablesAppend(a: seq<Record>, b: seq<Record>)
    ensures Tables(a + b) == Tables(a) + Tables(b)
  {
    if a == [] {
      assert a + b == b;
    } else {
      assert (a + b)[0] == a[0];
      assert (a + b)[1..] == a[1..] + b;
      TablesAppend(a[1..], b);
      calc {
        Tables(a + b);
        (if a[0].Table? then [a[0]] else []) + Tables(a[1..] + b);
        (if a[0].Table? then [a[0]] else []) + (Tables(a[1..]) + Tables(b));
        ((if a[0].Table? then [a[0]] else []) + Tables(a[1..])) + Tables(b);
      }
    }
  }


  /** A framed table holds just that table. */
  lemma FramedTable(host: string, multi: bool, t: Record)
    requires t.Table?
    ensures Tables(Framed(host, multi, [t])) == [t]
    ensures Tables(if multi then [Banner(host)] else []) == []
  {
    var banner := if multi then [Banner(host)] else [];
    var sep := if multi then [Separator] else [];
    TablesAppend(banner + [t], sep);
    TablesAppend(banner, [t]);
    assert Tables(sep) == [] by {
      if multi { assert Tables(sep) == [] + Tables(sep[1..]); }
    }
    assert Tables(banner) == [] by {
      if multi { assert Tables(banner) == [] + Tables(banner[1..]); }
    }
    assert Tables([t]) == [t] + Tables([t][1..]);
  }

  /**
   * A lister exits with 0 exactly when the action succeeds on every host;
   * otherwise it raises what the first failing host raised.
   */
  lemma {:induction false} ListerStopsAtFirstFailure(hosts: seq<string>, multi: bool, columns: PyVal,
                                                     execute: string -> Attempt<Stream>)
    ensures var status := ListerRun(hosts, multi, columns, execute).1;
            var n := Succeeding(hosts, columns, execute);
            (status.Returned? <==> n == |hosts|) &&
            (status.Returned? ==> status == Returned(Some(0))) &&
            (status.Raised? ==> ListerAction(columns, execute(hosts[n])) == Threw(status.exc))
  {
    if hosts != [] && ListerAction(columns, execute(hosts[0])).Done? {
      ListerRunCons(hosts, multi, columns, execute);
      ListerStopsAtFirstFailure(hosts[1..], multi, columns, execute);
      assert hosts[1..][Succeeding(hosts[1..], columns, execute)..] == hosts[1 + Succeeding(hosts[1..], columns, execute)..];
    }
  }

  /** A host's output holds its table when the action succeeds, and no table otherwise. */
  lemma ListerHostTables(host: string, multi: bool, columns: PyVal, res: Attempt<Stream>)
    ensures Tables(ListerHost(host, multi, columns, res).0) ==
              if ListerAction(columns, res).Done?
              then [Table(ListerAction(columns, res).value.0, ListerAction(columns, res).value.1)]
              else []
  {
    match ListerAction(columns, res)
    case Threw(e) => FramedTable(host, multi, Table(PNone, []));
    case Done(t) => FramedTable(host, multi, Table(t.0, t.1));
  }

  /** The tables of the hosts the lister's action succeeds on, from the first up to the first failing one. */
  function SucceedingTables(hosts: seq<string>, columns: PyVal, execute: string -> Attempt<Stream>): (r: seq<Record>)
    ensures |r| == Succeeding(hosts, columns, execute)
    ensures forall j :: 0 <= j < |r| ==>
              r[j] == Table(ListerAction(columns, execute(hosts[j])).value.0,
                            ListerAction(columns, execute(hosts[j])).value.1)
  {
    if hosts == [] || ListerAction(columns, execute(hosts[0])).Threw? then []
    else
      var t := ListerAction(columns, execute(hosts[0])).value;
      var rest := SucceedingTables(hosts[1..], columns, execute);
      assert forall j :: 1 <= j < |rest| + 1 ==> hosts[1..][j - 1] == hosts[j];
      [Table(t.0, t.1)] + rest
  }

  /**
   * What a lister writes holds one table per host up to the first failing
   * one: each host's own, in session order.
   */
  lemma {:induction false} ListerTables(hosts: seq<string>, multi: bool, columns: PyVal,
                                        execute: string -> Attempt<Stream>)
    ensures Tables(ListerRun(hosts, multi, columns, execute).0) == SucceedingTables(hosts, columns, execute)
  {
    if hosts != [] {
      ListerRunCons(hosts, multi, columns, execute);
      ListerHostTables(hosts[0], multi, columns, execute(hosts[0]));
      var first := ListerHost(hosts[0], multi, columns, execute(hosts[0]));
      if first.1.None? {
        ListerTables(hosts[1..], multi, columns, execute);
        TablesAppend(first.0, ListerRun(hosts[1..], multi, columns, execute).0);
      }
    }
  }

  // --------------------------------------------------------- ShowInstance

  /**
   * `LmiShowInstance.take_action` (lines 475-484): render what the
   * associated function returned. A `render` of None (line 296 of meta.py)
   * is not callable.
   */
  function ShowAction(render: Option<Renderer>, res: Attempt<PyVal>, call: Call): Attempt<(seq<PyVal>, seq<PyVal>)>
  {
    match res
    case Threw(e) => Threw(e)
    case Done(v) => if render.None? then Threw(TypeError) else Rendered(render.value, v, call)
  }

  /** What one pass of the loop of `LmiShowInstance.process_session` writes for a host, and what it raised. */
  function ShowHost(host: string, multi: bool, render: Option<Renderer>, res: Attempt<PyVal>, call: Call)
    : (seq<Record>, Option<Exc>)
  {
    match ShowAction(render, res, call)
    case Threw(e) => (Framed(host, multi, []), Some(e))
    case Done(p) => (Framed(host, multi, [Pairs(p.0, p.1)]), None)
  }

  /** The failure a pass records for `host`: the host with what it raised, if anything. */
  function Caught(host: string, step: Step): seq<(string, Exc)>
  {
    if step(host).1.Some? then [(host, step(host).1.value)] else []
  }

  /**
   * A loop over `todo`, after `out` is written and `failures` recorded,
   * that catches what each pass raises, records it and goes on.
   */
  function CatchEach(out: seq<Record>, failures: seq<(string, Exc)>, todo: seq<string>, step: Step)
    : (seq<Record>, seq<(string, Exc)>)
    decreases |todo|
  {
    if todo == [] then (out, failures)
    else CatchEach(out + step(todo[0]).0, failures + Caught(todo[0], step), todo[1..], step)
  }

  /** What such a loop writes follows what was written before it. */
  lemma {:induction false} CatchEachWrites(out: seq<Record>, failures: seq<(string, Exc)>, todo: seq<string>, step: Step)
    ensures CatchEach(out, failures, todo, step).0 == out + CatchEach([], [], todo, step).0
    decreases |todo|
  {
    if todo == [] {
      assert out + [] == out;
    } else {
      var first := step(todo[0]).0;
      var caught := Caught(todo[0], step);
      var rest := CatchEach([], [], todo[1..], step).0;
      calc {
        CatchEach(out, failures, todo, step).0;
        CatchEach(out + first, failures + caught, todo[1..], step).0;
        { CatchEachWrites(out + first, failures + caught, todo[1..], step); }
        (out + first) + rest;
        { assert (out + first) + rest == out + (first + rest); }
        out + (first + rest);
        { CatchEachWrites(first, caught, todo[1..], step); }
        out + CatchEach(first, caught, todo[1..], step).0;
        { assert [] + first == first && [] + caught == caught; }
        out + CatchEach([] + first, [] + caught, todo[1..], step).0;
        out + CatchEach([], [], todo, step).0;
      }
    }
  }

  /** What such a loop records follows what was recorded before it. */
  lemma {:induction false} CatchEachRecords(out: seq<Record>, failures: seq<(string, Exc)>, todo: seq<string>, step: Step)
    ensures CatchEach(out, failures, todo, step).1 == failures + CatchEach([], [], todo, step).1
    decreases |todo|
  {
    if todo == [] {
      assert failures + [] == failures;
    } else {
      var first := step(todo[0]).0;
      var caught := Caught(todo[0], step);
      var rest := CatchEach([], [], todo[1..], step).1;
      calc {
        CatchEach(out, failures, todo, step).1;
        CatchEach(out + first, failures + caught, todo[1..], step).1;
        { CatchEachRecords(out + first, failures + caught, todo[1..], step); }
        (failures + caught) + rest;
        { assert (failures + caught) + rest == failures + (caught + rest); }
        failures + (caught + rest);
        { CatchEachRecords(first, caught, todo[1..], step); }
        failures + CatchEach(first, caught, todo[1..], step).1;
        { assert [] + first == first && [] + caught == caught; }
        failures + CatchEach([] + first, [] + caught, todo[1..], step).1;
        failures + CatchEach([], [], todo, step).1;
      }
    }
  }

  /** A loop that catches every exception is the first pass, then the loop over the rest. */
  lemma CatchEachCons(todo: seq<string>, step: Step)
    requires todo != []
    ensures CatchEach([], [], todo, step).0 == step(todo[0]).0 + CatchEach([], [], todo[1..], step).0
    ensures CatchEach([], [], todo, step).1 == Caught(todo[0], step) + CatchEach([], [], todo[1..], step).1
  {
    assert [] + step(todo[0]).0 == step(todo[0]).0 && [] + Caught(todo[0], step) == Caught(todo[0], step);
    CatchEachWrites(step(todo[0]).0, Caught(todo[0], step), todo[1..], step);
    CatchEachRecords(step(todo[0]).0, Caught(todo[0], step), todo[1..], step);
  }

  /** One pass of the loop of `LmiShowInstance.process_session`. */
  function ShowStep(multi: bool, render: Option<Renderer>, execute: string -> Attempt<PyVal>, call: Call): Step
  {
    host => ShowHost(host, multi, render, execute(host), call)
  }

  /**
   * The loop of `LmiShowInstance.process_session` (lines 488-504): every
   * host's output, and the hosts whose action raised, with what they raised.
   */
  function ShowLoop(hosts: seq<string>, multi: bool, render: Option<Renderer>,
                    execute: string -> Attempt<PyVal>, call: Call): (seq<Record>, seq<(string, Exc)>)
  {
    CatchEach([], [], hosts, ShowStep(multi, render, execute, call))
  }

  /** The show-instance loop is the first host's output and failure, then the loop over the other hosts. */
  lemma ShowLoopCons(hosts: seq<string>, multi: bool, render: Option<Renderer>,
                     execute: string -> Attempt<PyVal>, call: Call)
    requires hosts != []
    ensures ShowLoop(hosts, multi, render, execute, call).0 ==
              ShowHost(hosts[0], multi, render, execute(hosts[0]), call).0 + ShowLoop(hosts[1..], multi, render, execute, call).0
    ensures ShowLoop(hosts, multi, render, execute, call).1 ==
              (if ShowHost(hosts[0], multi, render, execute(hosts[0]), call).1.Some?
               then [(hosts[0], ShowHost(hosts[0], multi, render, execute(hosts[0]), call).1.value)] else []) +
              ShowLoop(hosts[1..], multi, render, execute, call).1
  {
    CatchEachCons(hosts, ShowStep(multi, render, execute, call));
  }

  /** The summary written after the loop (lines 505-509) when some host failed. */
  function FailureSummary(failures: seq<(string, Exc)>): seq<Record>
  {
    if failures == [] then []
    else [FailureCount(|failures|),
          Report(("Host", "Error"), seq(|failures|, i requires 0 <= i < |failures| => (failures[i].0, Error(failures[i].1))))]
  }

  /** One pass of the loop of `LmiShowInstance.process_session`, catching what the host's action raises. */
  method ShowHostOutput(host: string, multi: bool, render: Option<Renderer>, res: Attempt<PyVal>, call: Call)
    returns (out: seq<Record>, err: Option<Exc>)
    ensures (out, err) == ShowHost(host, multi, render, res, call)
  {
    out := if multi then [Banner(host)] else [];
    var shown: Attempt<(seq<PyVal>, seq<PyVal>)>;
    if res.Threw? {
      shown := Threw(res.exc);
    } else if render.None? {
      shown := Threw(TypeError);
    } else {
      shown := Rendered(render.value, res.value, call);
    }
    assert shown == ShowAction(render, res, call);
    if shown.Done? {
      out := out + [Pairs(shown.value.0, shown.value.1)];
      err := None;
    } else {
      err := Some(shown.exc);
    }
    out := out + (if multi then [Separator] else []);
    if shown.Done? {
      assert out == Framed(host, multi, [Pairs(shown.value.0, shown.value.1)]);
    } else {
      assert out == Framed(host, multi, []);
    }
  }

  /** `LmiShowInstance.process_session` (lines 486-510), which always returns 0. */
  method ShowProcessSession(hosts: seq<string>, multi: bool, render: Option<Renderer>,
                            execute: string -> Attempt<PyVal>, call: Call)
    returns (out: seq<Record>, code: int)
    ensures out == ShowLoop(hosts, multi, render, execute, call).0 + FailureSummary(ShowLoop(hosts, multi, render, execute, call).1)
    ensures code == 0
  {
    out := [];
    var failures: seq<(string, Exc)> := [];
    var todo := hosts;
    while todo != []
      invariant CatchEach(out, failures, todo, ShowStep(multi, render, execute, call)) == ShowLoop(hosts, multi, render, execute, call)
    {
      var written, err := ShowHostOutput(todo[0], multi, render, execute(todo[0]), call);
      assert (written, err) == ShowStep(multi, render, execute, call)(todo[0]);
      out := out + written;
      if err.Some? {
        failures := failures + [(todo[0], err.value)];
      } else {
        assert failures + [] == failures;
      }
      todo := todo[1..];
    }
    if |failures| > 0 {
      var rows := seq(|failures|, k requires 0 <= k < |failures| => (failures[k].0, Error(failures[k].1)));
      out := out + [FailureCount(|failures|), Report(("Host", "Error"), rows)];
    } else {
      assert out + [] == out;
    }
    code := 0;
  }

  /** The number of rendered instances among the records. */
  function PairsCount(out: seq<Record>): nat
  {
    if out == [] then 0 else (if out[0].Pairs? then 1 else 0) + PairsCount(out[1..])
  }

  lemma {:induction false} PairsCountAppend(a: seq<Record>, b: seq<Record>)
    ensures PairsCount(a + b) == PairsCount(a) + PairsCount(b)
  {
    if a == [] {
      assert a + b == b;
    } else {
      assert (a + b)[0] == a[0];
      assert (a + b)[1..] == a[1..] + b;
      PairsCountAppend(a[1..], b);
    }
  }

  /** A host's output holds one rendered instance when its action succeeds, and none otherwise. */
  lemma ShowHostPairs(host: string, multi: bool, render: Option<Renderer>, res: Attempt<PyVal>, call: Call)
    ensures PairsCount(ShowHost(host, multi, render, res, call).0) ==
            (if ShowHost(host, multi, render, res, call).1.None? then 1 else 0)
  {
    var banner := if multi then [Banner(host)] else [];
    var sep := if multi then [Separator] else [];
    var body := if ShowAction(render, res, call).Done? then [ShowHost(host, multi, render, res, call).0[|banner|]] else [];
    assert ShowHost(host, multi, render, res, call).0 == banner + body + sep;
    PairsCountAppend(banner + body, sep);
    PairsCountAppend(banner, body);
    assert PairsCount(sep) == 0 by {
      if multi { assert sep[1..] == []; }
    }
    assert PairsCount(banner) == 0 by {
      if multi { assert banner[1..] == []; }
    }
    if body != [] {
      assert body[1..] == [];
    }
  }

  /**
   * A show-instance command never stops at a failing host: every host either
   * renders one instance or is listed among the failures.
   */
  lemma {:induction false} ShowAccountsForEveryHost(hosts: seq<string>, multi: bool, render: Option<Renderer>,
                                                    execute: string -> Attempt<PyVal>, call: Call)
    ensures PairsCount(ShowLoop(hosts, multi, render, execute, call).0) + |ShowLoop(hosts, multi, render, execute, call).1| == |hosts|
  {
    if hosts != [] {
      ShowLoopCons(hosts, multi, render, execute, call);
      ShowAccountsForEveryHost(hosts[1..], multi, render, execute, call);
      ShowHostPairs(hosts[0], multi, render, execute(hosts[0]), call);
      PairsCountAppend(ShowHost(hosts[0], multi, render, execute(hosts[0]), call).0,
                       ShowLoop(hosts[1..], multi, render, execute, call).0);
    }
  }

  /** Every listed failure is a host of the session paired with exactly what its action raised. */
  lemma {:induction false} ShowFailuresAreRaised(hosts: seq<string>, multi: bool, render: Option<Renderer>,
                                                 execute: string -> Attempt<PyVal>, call: Call)
    ensures forall k :: 0 <= k < |ShowLoop(hosts, multi, render, execute, call).1| ==>
              ShowLoop(hosts, multi, render, execute, call).1[k].0 in hosts &&
              ShowAction(render, execute(ShowLoop(hosts, multi, render, execute, call).1[k].0), call) ==
                Threw(ShowLoop(hosts, multi, render, execute, call).1[k].1)
  {
    if hosts != [] {
      ShowLoopCons(hosts, multi, render, execute, call);
      ShowFailuresAreRaised(hosts[1..], multi, render, execute, call);
      var failures := ShowLoop(hosts, multi, render, execute, call).1;
      var rest := ShowLoop(hosts[1..], multi, render, execute, call).1;
      var first := if ShowHost(hosts[0], multi, render, execute(hosts[0]), call).1.Some?
                   then [(hosts[0], ShowHost(hosts[0], multi, render, execute(hosts[0]), call).1.value)] else [];
      assert failures == first + rest;
      forall k | 0 <= k < |failures|
        ensures failures[k].0 in hosts && ShowAction(render, execute(failures[k].0), call) == Threw(failures[k].1)
      {
        if k >= |first| {
          assert failures[k] == rest[k - |first|];
          assert rest[k - |first|].0 in hosts[1..];
          assert rest[k - |first|].0 in hosts;
        } else {
          assert failures[k] == first[0];
          assert ShowAction(render, execute(hosts[0]), call).Threw?;
        }
      }
    }
  }

  /** Every host whose action raises is listed among the failures with what it raised. */
  lemma {:induction false} ShowFailuresComplete(hosts: seq<string>, multi: bool, render: Option<Renderer>,
                                                execute: string -> Attempt<PyVal>, call: Call)
    ensures forall j :: 0 <= j < |hosts| && ShowAction(render, execute(hosts[j]), call).Threw? ==>
              (hosts[j], ShowAction(render, execute(hosts[j]), call).exc) in ShowLoop(hosts, multi, render, execute, call).1
  {
    if hosts != [] {
      ShowLoopCons(hosts, multi, render, execute, call);
      ShowFailuresComplete(hosts[1..], multi, render, execute, call);
      var failures := ShowLoop(hosts, multi, render, execute, call).1;
      var rest := ShowLoop(hosts[1..], multi, render, execute, call).1;
      var first := if ShowHost(hosts[0], multi, render, execute(hosts[0]), call).1.Some?
                   then [(hosts[0], ShowHost(hosts[0], multi, render, execute(hosts[0]), call).1.value)] else [];
      assert failures == first + rest;
      forall j | 0 <= j < |hosts| && ShowAction(render, execute(hosts[j]), call).Threw?
        ensures (hosts[j], ShowAction(render, execute(hosts[j]), call).exc) in failures
      {
        if j > 0 {
          assert hosts[1..][j - 1] == hosts[j];
        }
      }
    }
  }

  /**
   * With the `render` of None that a show-instance command without
   * PROPERTIES or DYNAMIC_PROPERTIES is given, every host fails.
   */
  lemma {:induction false} NoRenderFailsEveryHost(hosts: seq<string>, multi: bool, execute: string -> Attempt<PyVal>, call: Call)
    ensures |ShowLoop(hosts, multi, None, execute, call).1| == |hosts|
  {
    if hosts != [] {
      ShowLoopCons(hosts, multi, None, execute, call);
      NoRenderFailsEveryHost(hosts[1..], multi, execute, call);
    }
  }

  /**
   * With the renderer of all properties that the corrected metaclass
   * installs instead, no host whose associated function returns an instance
   * fails, and every host shows one. This holds under the model's reading
   * of `inst.properties` as a dictionary (line 237 of meta.py); if it is
   * the method that line 263 calls, the renderer raises AttributeError on
   * every host as well.
   */
  lemma {:induction false} AllPropertiesShowEveryHost(hosts: seq<string>, multi: bool, execute: string -> Attempt<PyVal>, call: Call)
    requires forall h :: h in hosts ==> execute(h).Done? && execute(h).value.PInstance?
    ensures ShowLoop(hosts, multi, Some(RenderAll), execute, call).1 == []
    ensures PairsCount(ShowLoop(hosts, multi, Some(RenderAll), execute, call).0) == |hosts|
  {
    if hosts != [] {
      ShowLoopCons(hosts, multi, Some(RenderAll), execute, call);
      AllPropertiesShowEveryHost(hosts[1..], multi, execute, call);
    }
    ShowAccountsForEveryHost(hosts, multi, Some(RenderAll), execute, call);
  }

  // -------------------------------------------------------- run_with_args

  /**
   * How `LmiEndPointCommand.run_with_args` (lines 206-215), and so `run`,
   * ends when the associated function returned or raised `res`: what it
   * returned is dropped.
   */
  function ExecuteWithArgs(res: Attempt<PyVal>): (r: Status)
    ensures r.Raised? <==> res.Threw?
    ensures res.Threw? ==> r == Raised(res.exc)
    ensures r.Returned? ==> r.code == None
  {
    match res
    case Done(_) => Returned(None)
    case Threw(e) => Raised(e)
  }

  /**
   * How `LmiSessionCommand.run_with_args` (lines 361-362), and so `run`,
   * ends when `process_session` ended with `call`. Its result is not
   * returned, so `run` returns None and the exit code of `process_session`
   * is lost; an exception passes through.
   */
  function RunWithArgs(call: Status): (r: Status)
    ensures r.Raised? <==> call.Raised?
    ensures r.Raised? ==> r == call
    ensures r.Returned? ==> r.code == None
  {
    if call.Raised? then call else Returned(None)
  }

  /**
   * A lister's `run` returns None, not the 0 of `process_session`, exactly
   * when the action succeeds on every host; otherwise it raises what the
   * first failing host raised.
   */
  lemma ListerRunExit(hosts: seq<string>, multi: bool, columns: PyVal, execute: string -> Attempt<Stream>)
    ensures var status := RunWithArgs(ListerRun(hosts, multi, columns, execute).1);
            var n := Succeeding(hosts, columns, execute);
            (status == Returned(None) <==> n == |hosts|) &&
            (status.Raised? ==> n < |hosts| && ListerAction(columns, execute(hosts[n])) == Threw(status.exc))
  {
    ListerStopsAtFirstFailure(hosts, multi, columns, execute);
  }

  // ---------------------------------------------------------- CheckResult

  /**
   * `LmiCheckResult.take_action` (lines 550-570) on a host whose associated
   * function returned or raised `res`: whether the check passed, and the
   * exception if one was raised. The check is given the positional
   * arguments as its options (line 564).
   */
  function Verdict(checker: Checker, args: seq<PyVal>, res: Attempt<PyVal>, call2: Call2): (r: (bool, Option<Exc>))
    ensures r.1.Some? ==> !r.0
    ensures res.Threw? ==> r == (false, Some(res.exc))
    ensures res.Done? && checker.Equals? ==> r == (PyEq(checker.expected, Unwrap(res.value)), None)
    ensures res.Done? && checker.Predicate? ==>
              var checked := call2(checker.fn, PList(args), Unwrap(res.value));
              (checked.Threw? ==> r == (false, Some(checked.exc))) &&
              (checked.Done? ==> r == (Truthy(checked.value), None))
  {
    match res
    case Threw(e) => (false, Some(e))
    case Done(v) =>
      match CheckResult(checker, PList(args), v, call2)
      case Threw(e) => (false, Some(e))
      case Done(passed) => (Truthy(passed), None)
  }

  /** The `results` dictionary once `take_action` has run on `hosts` in turn. */
  function Stored(results: map<string, PyVal>, hosts: seq<string>, execute: string -> Attempt<PyVal>): map<string, PyVal>
  {
    if hosts == [] then results
    else
      var before := Stored(results, hosts[..|hosts| - 1], execute);
      var last := hosts[|hosts| - 1];
      if execute(last).Done? then before[last := execute(last).value] else before
  }

  /**
   * A host gets a result exactly when its associated function returned,
   * whether or not the check then raised, and keeps what it had otherwise.
   */
  lemma {:induction false} StoredResults(results: map<string, PyVal>, hosts: seq<string>, execute: string -> Attempt<PyVal>)
    ensures forall h :: h in Stored(results, hosts, execute) <==> h in results || (h in hosts && execute(h).Done?)
    ensures forall h :: h in hosts && execute(h).Done? ==> Stored(results, hosts, execute)[h] == execute(h).value
    ensures forall h :: h in results && !(h in hosts && execute(h).Done?) ==> Stored(results, hosts, execute)[h] == results[h]
  {
    if hosts != [] {
      var init := hosts[..|hosts| - 1];
      StoredResults(results, init, execute);
      assert hosts == init + [hosts[|hosts| - 1]];
      assert forall h :: h in hosts <==> h in init || h == hosts[|hosts| - 1];
    }
  }

  /**
   * The hosts that passed and the hosts that failed, each with its error,
   * in session order: the two lists of `process_session` (lines 574-577).
   */
  function Partition(checker: Checker, args: seq<PyVal>, hosts: seq<string>, execute: string -> Attempt<PyVal>, call2: Call2)
    : (seq<(string, Option<Exc>)>, seq<(string, Option<Exc>)>)
  {
    if hosts == [] then ([], [])
    else
      var before := Partition(checker, args, hosts[..|hosts| - 1], execute, call2);
      var last := hosts[|hosts| - 1];
      var v := Verdict(checker, args, execute(last), call2);
      if v.0 then (before.0 + [(last, v.1)], before.1) else (before.0, before.1 + [(last, v.1)])
  }

  /** The debug lines of the loop (lines 578-583): one per host whose action raised. */
  function DebugLines(checker: Checker, args: seq<PyVal>, hosts: seq<string>, execute: string -> Attempt<PyVal>, call2: Call2)
    : seq<Record>
  {
    if hosts == [] then []
    else
      var last := hosts[|hosts| - 1];
      var v := Verdict(checker, args, execute(last), call2);
      DebugLines(checker, args, hosts[..|hosts| - 1], execute, call2) +
      (if !v.0 && v.1.Some? then [InvocationFailed(last, v.1.value)] else [])
  }

  function HostsOf(entries: seq<(string, Option<Exc>)>): (r: seq<string>)
    ensures |r| == |entries| && forall i :: 0 <= i < |entries| ==> r[i] == entries[i].0
  {
    seq(|entries|, i requires 0 <= i < |entries| => entries[i].0)
  }

  /** Every host of the session lands in exactly one of the passed and the failed lists. */
  lemma {:induction false} PartitionSplitsHosts(checker: Checker, args: seq<PyVal>, hosts: seq<string>,
                                                execute: string -> Attempt<PyVal>, call2: Call2)
    ensures multiset(HostsOf(Partition(checker, args, hosts, execute, call2).0)) +
            multiset(HostsOf(Partition(checker, args, hosts, execute, call2).1)) == multiset(hosts)
  {
    if hosts != [] {
      var init := hosts[..|hosts| - 1];
      var last := hosts[|hosts| - 1];
      var before := Partition(checker, args, init, execute, call2);
      var after := Partition(checker, args, hosts, execute, call2);
      var v := Verdict(checker, args, execute(last), call2);
      calc {
        multiset(HostsOf(after.0)) + multiset(HostsOf(after.1));
        { if v.0 {
            assert HostsOf(after.0) == HostsOf(before.0) + [last];
            assert HostsOf(after.1) == HostsOf(before.1);
          } else {
            assert HostsOf(after.0) == HostsOf(before.0);
            assert HostsOf(after.1) == HostsOf(before.1) + [last];
          }
        }
        multiset(HostsOf(before.0)) + multiset(HostsOf(before.1)) + multiset{last};
        { PartitionSplitsHosts(checker, args, init, execute, call2); }
        multiset(init) + multiset{last};
        { assert hosts == init + [last]; }
        multiset(hosts);
      }
    }
  }

  /**
   * A host is listed as passed exactly when its check returned something
   * true, with no error; a failed host carries the exception its action
   * raised, or none when the check said no.
   */
  lemma {:induction false} PartitionByVerdict(checker: Checker, args: seq<PyVal>, hosts: seq<string>,
                                              execute: string -> Attempt<PyVal>, call2: Call2)
    ensures forall k :: 0 <= k < |Partition(checker, args, hosts, execute, call2).0| ==>
              var (host, error) := Partition(checker, args, hosts, execute, call2).0[k];
              host in hosts && Verdict(checker, args, execute(host), call2) == (true, None) && error.None?
    ensures forall k :: 0 <= k < |Partition(checker, args, hosts, execute, call2).1| ==>
              var (host, error) := Partition(checker, args, hosts, execute, call2).1[k];
              host in hosts && !Verdict(checker, args, execute(host), call2).0 &&
              error == Verdict(checker, args, execute(host), call2).1
  {
    if hosts != [] {
      var init := hosts[..|hosts| - 1];
      var last := hosts[|hosts| - 1];
      PartitionByVerdict(checker, args, init, execute, call2);
      var (p0, f0) := Partition(checker, args, init, execute, call2);
      var (passed, failed) := Partition(checker, args, hosts, execute, call2);
      var v := Verdict(checker, args, execute(last), call2);
      assert last in hosts;
      forall k | 0 <= k < |passed|
        ensures passed[k].0 in hosts && Verdict(checker, args, execute(passed[k].0), call2) == (true, None) &&
                passed[k].1.None?
      {
        if k < |p0| {
          assert passed[k] == p0[k];
          assert p0[k].0 in init;
        } else {
          assert passed[k] == (last, v.1);
        }
      }
      forall k | 0 <= k < |failed|
        ensures failed[k].0 in hosts && !Verdict(checker, args, execute(failed[k].0), call2).0 &&
                failed[k].1 == Verdict(checker, args, execute(failed[k].0), call2).1
      {
        if k < |f0| {
          assert failed[k] == f0[k];
          assert f0[k].0 in init;
        } else {
          assert failed[k] == (last, v.1);
        }
      }
    }
  }

  /** The rows of the failure report for the hosts the session could not connect to (lines 591-592). */
  function UnconnectedRows(unconnected: seq<string>): (r: seq<(string, Reason)>)
    ensures |r| == |unconnected|
    ensures forall i :: 0 <= i < |r| ==> r[i] == (unconnected[i], Text("failed to connect"))
  {
    if unconnected == [] then []
    else UnconnectedRows(unconnected[..|unconnected| - 1]) + [(unconnected[|unconnected| - 1], Text("failed to connect"))]
  }

  /**
   * The rows of the failure report for the failed hosts (lines 593-601):
   * the exception, or "failed", with the expected and the stored result
   * when the verbosity is at least informational and EXPECT is a value.
   * Looking up a stored result that is not there raises KeyError.
   */
  function FailedRows(failed: seq<(string, Option<Exc>)>, checker: Checker, infoOn: bool, results: map<string, PyVal>)
    : Attempt<seq<(string, Reason)>>
  {
    if failed == [] then Done([])
    else
      match FailedRows(failed[..|failed| - 1], checker, infoOn, results)
      case Threw(e) => Threw(e)
      case Done(rows) =>
        var (host, error) := failed[|failed| - 1];
        if error.Some? then Done(rows + [(host, Error(error.value))])
        else if !(infoOn && checker.Equals?) then Done(rows + [(host, Text("failed"))])
        else if host !in results then Threw(KeyError(host))
        else Done(rows + [(host, Mismatch(checker.expected, results[host]))])
  }

  /**
   * The failure rows are there exactly when every failed host without an
   * error whose result the report shows has a stored result; they name the
   * failed hosts in order, each with its exception, or "failed".
   */
  lemma {:induction false} FailedRowsShape(failed: seq<(string, Option<Exc>)>, checker: Checker, infoOn: bool,
                                           results: map<string, PyVal>)
    ensures FailedRows(failed, checker, infoOn, results).Done? <==>
              (infoOn && checker.Equals? ==>
                 forall k :: 0 <= k < |failed| && failed[k].1.None? ==> failed[k].0 in results)
    ensures FailedRows(failed, checker, infoOn, results).Done? ==>
              var rows := FailedRows(failed, checker, infoOn, results).value;
              |rows| == |failed| &&
              forall k :: 0 <= k < |failed| ==>
                rows[k].0 == failed[k].0 &&
                (failed[k].1.Some? ==> rows[k].1 == Error(failed[k].1.value)) &&
                (failed[k].1.None? && !(infoOn && checker.Equals?) ==> rows[k].1 == Text("failed")) &&
                (failed[k].1.None? && infoOn && checker.Equals? ==>
                   rows[k].1 == Mismatch(checker.expected, results[failed[k].0]))
  {
    if failed != [] {
      FailedRowsShape(failed[..|failed| - 1], checker, infoOn, results);
    }
  }

  /**
   * Everything `LmiCheckResult.process_session` (lines 572-602) writes: the
   * debug lines, the count of successful runs, and, when some host failed
   * or could not be reached, their count and the report, the unreachable
   * hosts first.
   */
  function CheckOutput(checker: Checker, args: seq<PyVal>, hosts: seq<string>, unconnected: seq<string>,
                       execute: string -> Attempt<PyVal>, call2: Call2, infoOn: bool, debugOn: bool,
                       results: map<string, PyVal>): Attempt<seq<Record>>
  {
    var split := Partition(checker, args, hosts, execute, call2);
    var head := (if debugOn then DebugLines(checker, args, hosts, execute, call2) else []) +
                (if infoOn then [SuccessCount(|split.0|)] else []);
    var failedRuns := |split.1| + |unconnected|;
    if failedRuns == 0 then Done(head)
    else
      match FailedRows(split.1, checker, infoOn, results)
      case Threw(e) => Threw(e)
      case Done(rows) =>
        Done(head + [FailureCount(failedRuns), Report(("Name", "Error"), UnconnectedRows(unconnected) + rows)])
  }

  /**
   * With the results `take_action` stored, the report never misses one: a
   * failed host without an error had its associated function return.
   */
  lemma ReportFindsResults(checker: Checker, args: seq<PyVal>, hosts: seq<string>, unconnected: seq<string>,
                           execute: string -> Attempt<PyVal>, call2: Call2, infoOn: bool, debugOn: bool,
                           results: map<string, PyVal>)
    ensures CheckOutput(checker, args, hosts, unconnected, execute, call2, infoOn, debugOn,
                        Stored(results, hosts, execute)).Done?
  {
    var failed := Partition(checker, args, hosts, execute, call2).1;
    var stored := Stored(results, hosts, execute);
    PartitionByVerdict(checker, args, hosts, execute, call2);
    StoredResults(results, hosts, execute);
    forall k | 0 <= k < |failed| && failed[k].1.None?
      ensures failed[k].0 in stored
    {
      assert execute(failed[k].0).Done?;
    }
    FailedRowsShape(failed, checker, infoOn, stored);
  }

  /** With no failed and no unreachable host there is neither a failure count nor a report. */
  lemma NoFailuresNoReport(checker: Checker, args: seq<PyVal>, hosts: seq<string>, unconnected: seq<string>,
                           execute: string -> Attempt<PyVal>, call2: Call2, infoOn: bool, debugOn: bool,
                           results: map<string, PyVal>)
    requires |Partition(checker, args, hosts, execute, call2).1| + |unconnected| == 0
    ensures CheckOutput(checker, args, hosts, unconnected, execute, call2, infoOn, debugOn, results).Done?
    ensures var out := CheckOutput(checker, args, hosts, unconnected, execute, call2, infoOn, debugOn, results).value;
            forall k :: 0 <= k < |out| ==> !out[k].Report? && !out[k].FailureCount?
  {
    var debug: seq<Record> := if debugOn then DebugLines(checker, args, hosts, execute, call2) else [];
    var count: seq<Record> := if infoOn then [SuccessCount(|Partition(checker, args, hosts, execute, call2).0|)] else [];
    assert CheckOutput(checker, args, hosts, unconnected, execute, call2, infoOn, debugOn, results) == Done(debug + count);
    DebugOnlyInvocations(checker, args, hosts, execute, call2);
    forall k | 0 <= k < |debug + count|
      ensures !(debug + count)[k].Report? && !(debug + count)[k].FailureCount?
    {
      if k < |debug| {
        assert (debug + count)[k] == debug[k];
      } else {
        assert (debug + count)[k] == count[0];
      }
    }
  }

  /**
   * The report counts the failed and the unreachable hosts together, and
   * lists the unreachable ones first as "failed to connect", then the
   * failed ones in session order.
   */
  lemma FailureReport(checker: Checker, args: seq<PyVal>, hosts: seq<string>, unconnected: seq<string>,
                      execute: string -> Attempt<PyVal>, call2: Call2, infoOn: bool, debugOn: bool,
                      results: map<string, PyVal>)
    requires CheckOutput(checker, args, hosts, unconnected, execute, call2, infoOn, debugOn, results).Done?
    requires |Partition(checker, args, hosts, execute, call2).1| + |unconnected| > 0
    ensures var out := CheckOutput(checker, args, hosts, unconnected, execute, call2, infoOn, debugOn, results).value;
            var failed := Partition(checker, args, hosts, execute, call2).1;
            |out| >= 2 && out[|out| - 2] == FailureCount(|failed| + |unconnected|) && out[|out| - 1].Report? &&
            |out[|out| - 1].entries| == |failed| + |unconnected| &&
            (forall k :: 0 <= k < |unconnected| ==> out[|out| - 1].entries[k] == (unconnected[k], Text("failed to connect"))) &&
            (forall k :: 0 <= k < |failed| ==> out[|out| - 1].entries[|unconnected| + k].0 == failed[k].0)
  {
    var failed := Partition(checker, args, hosts, execute, call2).1;
    ReportTail(checker, args, hosts, unconnected, execute, call2, infoOn, debugOn, results);
    ReportEntries(unconnected, failed, checker, infoOn, results);
  }

  /** The last two records of a report with failures: the count, then the table of unreachable and failed hosts. */
  lemma ReportTail(checker: Checker, args: seq<PyVal>, hosts: seq<string>, unconnected: seq<string>,
                   execute: string -> Attempt<PyVal>, call2: Call2, infoOn: bool, debugOn: bool,
                   results: map<string, PyVal>)
    requires CheckOutput(checker, args, hosts, unconnected, execute, call2, infoOn, debugOn, results).Done?
    requires |Partition(checker, args, hosts, execute, call2).1| + |unconnected| > 0
    ensures var out := CheckOutput(checker, args, hosts, unconnected, execute, call2, infoOn, debugOn, results).value;
            var failed := Partition(checker, args, hosts, execute, call2).1;
            FailedRows(failed, checker, infoOn, results).Done? &&
            |out| >= 2 && out[|out| - 2] == FailureCount(|failed| + |unconnected|) &&
            out[|out| - 1] == Report(("Name", "Error"), UnconnectedRows(unconnected) + FailedRows(failed, checker, infoOn, results).value)
  {
  }

  /** The entries of the failure table: one per unreachable host, then one per failed host, each naming its host. */
  lemma ReportEntries(unconnected: seq<string>, failed: seq<(string, Option<Exc>)>, checker: Checker, infoOn: bool,
                      results: map<string, PyVal>)
    requires FailedRows(failed, checker, infoOn, results).Done?
    ensures var entries := UnconnectedRows(unconnected) + FailedRows(failed, checker, infoOn, results).value;
            |entries| == |failed| + |unconnected| &&
            (forall k :: 0 <= k < |unconnected| ==> entries[k] == (unconnected[k], Text("failed to connect"))) &&
            (forall k :: 0 <= k < |failed| ==> entries[|unconnected| + k].0 == failed[k].0)
  {
    FailedRowsShape(failed, checker, infoOn, results);
    var rows := FailedRows(failed, checker, infoOn, results).value;
    var entries := UnconnectedRows(unconnected) + rows;
    forall k | 0 <= k < |failed| ensures entries[|unconnected| + k].0 == failed[k].0 {
      assert entries[|unconnected| + k] == rows[k];
    }
  }

  lemma {:induction false} DebugOnlyInvocations(checker: Checker, args: seq<PyVal>, hosts: seq<string>,
                                                execute: string -> Attempt<PyVal>, call2: Call2)
    ensures forall k :: 0 <= k < |DebugLines(checker, args, hosts, execute, call2)| ==>
              DebugLines(checker, args, hosts, execute, call2)[k].InvocationFailed?
  {
    if hosts != [] {
      DebugOnlyInvocations(checker, args, hosts[..|hosts| - 1], execute, call2);
    }
  }

  /**
   * An `LmiCheckResult` command: the check built from EXPECT, and the
   * results of the associated function, by host name, that `take_action`
   * stores.
   */
  class CheckResultCommand {
    const checker: Checker
    var results: map<string, PyVal>

    /** `LmiCheckResult.__init__` (lines 529-532). */
    constructor(checker: Checker)
      ensures this.checker == checker && results == map[]
    {
      this.checker := checker;
      results := map[];
    }

    /**
     * `take_action` (lines 550-570): run the associated function, store its
     * result, check it; a raised exception makes the host fail with it.
     */
    method TakeAction(host: string, args: seq<PyVal>, execute: string -> Attempt<PyVal>, call2: Call2)
      returns (passed: bool, error: Option<Exc>)
      modifies this
      ensures (passed, error) == Verdict(checker, args, execute(host), call2)
      ensures results == (if execute(host).Done? then old(results)[host := execute(host).value] else old(results))
    {
      var res := execute(host);
      if res.Threw? {
        return false, Some(res.exc);
      }
      results := results[host := res.value];
      var checked := CheckResult(checker, PList(args), res.value, call2);
      if checked.Threw? {
        return false, Some(checked.exc);
      }
      return Truthy(checked.value), None;
    }

    /** The rows of the failure report (lines 590-601). */
    method ReportRows(unconnected: seq<string>, failed: seq<(string, Option<Exc>)>, infoOn: bool)
      returns (data: seq<(string, Reason)>)
      requires infoOn && checker.Equals? ==> forall k :: 0 <= k < |failed| && failed[k].1.None? ==> failed[k].0 in results
      ensures FailedRows(failed, checker, infoOn, results).Done?
      ensures data == UnconnectedRows(unconnected) + FailedRows(failed, checker, infoOn, results).value
    {
      data := [];
      for j := 0 to |unconnected|
        invariant data == UnconnectedRows(unconnected[..j])
      {
        assert unconnected[..j + 1][..j] == unconnected[..j];
        data := data + [(unconnected[j], Text("failed to connect"))];
      }
      assert unconnected[..|unconnected|] == unconnected;
      for j := 0 to |failed|
        invariant FailedRows(failed[..j], checker, infoOn, results).Done?
        invariant data == UnconnectedRows(unconnected) + FailedRows(failed[..j], checker, infoOn, results).value
      {
        assert failed[..j + 1][..j] == failed[..j];
        var (host, error) := failed[j];
        var reason: Reason;
        if error.Some? {
          reason := Error(error.value);
        } else {
          reason := Text("failed");
          if infoOn && checker.Equals? {
            reason := Mismatch(checker.expected, results[host]);
          }
        }
        data := data + [(host, reason)];
      }
      assert failed[..|failed|] == failed;
    }

    /**
     * `process_session` (lines 572-602): check every connected host, then
     * report. It returns None; what it writes is `out`.
     */
    method ProcessSession(hosts: seq<string>, unconnected: seq<string>, args: seq<PyVal>,
                          execute: string -> Attempt<PyVal>, call2: Call2, infoOn: bool, debugOn: bool)
      returns (out: seq<Record>)
      modifies this
      ensures results == Stored(old(results), hosts, execute)
      ensures CheckOutput(checker, args, hosts, unconnected, execute, call2, infoOn, debugOn, results) == Done(out)
    {
      var passed: seq<(string, Option<Exc>)> := [];
      var failed: seq<(string, Option<Exc>)> := [];
      var debug: seq<Record> := [];
      for i := 0 to |hosts|
        invariant (passed, failed) == Partition(checker, args, hosts[..i], execute, call2)
        invariant debug == (if debugOn then DebugLines(checker, args, hosts[..i], execute, call2) else [])
        invariant results == Stored(old(results), hosts[..i], execute)
        invariant forall k :: 0 <= k < |failed| && failed[k].1.None? ==> failed[k].0 in results
      {
        assert hosts[..i + 1][..i] == hosts[..i] && hosts[..i + 1][i] == hosts[i];
        var ok, error := TakeAction(hosts[i], args, execute, call2);
        if ok {
          passed := passed + [(hosts[i], error)];
        } else {
          failed := failed + [(hosts[i], error)];
        }
        if !ok && error.Some? && debugOn {
          debug := debug + [InvocationFailed(hosts[i], error.value)];
        }
      }
      assert hosts[..|hosts|] == hosts;
      out := debug;
      if infoOn {
        out := out + [SuccessCount(|passed|)];
      }
      ghost var head := out;
      assert head == (if debugOn then DebugLines(checker, args, hosts, execute, call2) else []) +
                     (if infoOn then [SuccessCount(|passed|)] else []);
      var failedRuns := |failed| + |unconnected|;
      if failedRuns > 0 {
        out := out + [FailureCount(failedRuns)];
        var data := ReportRows(unconnected, failed, infoOn);
        out := out + [Report(("Name", "Error"), data)];
        assert out == head + [FailureCount(failedRuns), Report(("Name", "Error"), data)];
      }
    }
  }
}
