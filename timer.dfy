/** The `Timer` context manager and the `timer` decorator of the training
    scripts' shared `timer` module.

    The injectable clock is not modelled as an object: every operation that
    reads the clock takes the reading it would get as a parameter `now`.
    Time is in integer ticks. The `fmt` string is modelled as the text around
    its single replacement field, and the elapsed value is printed as an
    integer. */
module Timing {
  import opened Wrappers
  import Decimal

  /** The `output` argument: left as `None`, a boolean, a callable sink
      (named), or some other value that is not callable. */
  datatype Output = Unset | Flag(on: bool) | Sink(name: string) | NotCallable

  const PrintSink := Sink("print")

  /** A `str.format` template with one replacement field between `head` and `tail`. */
  datatype Format = Format(head: string, tail: string)

  /** The default `fmt`, "took {:.3f} seconds". */
  const DefaultFormat := Format("took ", " seconds")

  /** `fmt.format(value)`. */
  function Render(f: Format, value: int): string
  {
    f.head + Decimal.IntToString(value) + f.tail
  }

  /** The output `__exit__` uses: `print` when asked for with `True`, or when
      left unset and a prefix is given; otherwise the output as it was. */
  function ResolveOutput(o: Output, prefix: string): (r: Output)
    ensures r.Sink? <==> o.Sink? || o == Flag(true) || (o == Unset && prefix != "")
    ensures !o.Sink? && r.Sink? ==> r == PrintSink
    ensures o.Sink? ==> r == o
  {
    if o == Flag(true) || (o == Unset && prefix != "") then PrintSink else o
  }

  /** A line handed to a sink: the prefix and the elapsed time formatted
      with `fmt`. */
  datatype Emission = Emission(sink: string, prefix: string, fmt: Format, value: int)

  /** The text of the line: the prefix, one space, and the formatted time. */
  function Text(e: Emission): (text: string)
    ensures |text| > |e.prefix| && text[..|e.prefix|] == e.prefix && text[|e.prefix|] == ' '
    ensures text[|e.prefix| + 1..] == Render(e.fmt, e.value)
  {
    var text := e.prefix + " " + Render(e.fmt, e.value);
    assert text[..|e.prefix|] == e.prefix;
    assert text[|e.prefix| + 1..] == Render(e.fmt, e.value);
    text
  }

  class Timer {
    var factor: int
    var output: Output
    var fmt: Format
    var prefix: string
    var start: Option<int>
    var end: Option<int>

    constructor (factor: int, output: Output, fmt: Format, prefix: string)
      ensures this.factor == factor && this.output == output
      ensures this.fmt == fmt && this.prefix == prefix
      ensures start == None && end == None
    {
      this.factor := factor;
      this.output := output;
      this.fmt := fmt;
      this.prefix := prefix;
      end := None;
      start := None;
    }

    /** `start` records the reading; `end` is left as it was. */
    method Start(now: int)
      modifies this`start
      ensures start == Some(now)
    {
      start := Some(now);
    }

    method Stop(now: int)
      modifies this`end
      ensures end == Some(now)
    {
      end := Some(now);
    }

    /** `elapsed`: measured up to the current reading while the timer has not
        been stopped, up to the stop reading afterwards. Subtracting from an
        unset start raises `TypeError`. */
    function Elapsed(now: int): (r: Result<int>)
      reads this
      ensures r.Ok? <==> start.Some?
      ensures r.Ok? && end.None? ==> r.value == (now - start.value) * factor
      ensures r.Ok? && end.Some? ==> r.value == (end.value - start.value) * factor
    {
      match (start, end)
      case (None, _) => Raised(TypeError("unsupported operand type(s) for -: 'float' and 'NoneType'"))
      case (Some(s), None) => Ok((now - s) * factor)
      case (Some(s), Some(e)) => Ok((e - s) * factor)
    }

    /** `__enter__` starts the timer and returns the timer itself. */
    method Enter(now: int) returns (same: Timer)
      modifies this`start
      ensures same == this && start == Some(now)
    {
      Start(now);
      same := this;
    }

    /** `__exit__` stops the timer, resolves the output, and if that is
        callable hands it prefix, a space and the formatted elapsed time. */
    method Exit(now: int) returns (line: Result<Option<Emission>>)
      modifies this`end, this`output
      ensures end == Some(now)
      ensures output == ResolveOutput(old(output), prefix)
      ensures !output.Sink? ==> line == Ok(None)
      ensures output.Sink? && start.None? ==> line.Raised?
      ensures output.Sink? && start.Some? ==>
        line == Ok(Some(Emission(output.name, prefix, fmt, (now - start.value) * factor)))
    {
      Stop(now);
      output := ResolveOutput(output, prefix);
      if output.Sink? {
        var e := Elapsed(now);
        if e.Raised? {
          line := Raised(e.error);
        } else {
          line := Ok(Some(Emission(output.name, prefix, fmt, e.value)));
        }
      } else {
        line := Ok(None);
      }
    }
  }

  /** Once stopped, `elapsed` no longer depends on the clock. */
  lemma ElapsedFrozenAfterStop(t: Timer, now1: int, now2: int)
    requires t.end.Some?
    ensures t.Elapsed(now1) == t.Elapsed(now2)
  {
  }

  /** Restarting does not clear the old stop reading: after stop at `e` and
      start at `s`, `elapsed` measures from the new start back to the old end. */
  method RestartAfterStop(t: Timer, e: int, s: int, now: int) returns (r: Result<int>)
    modifies t
    ensures t.start == Some(s) && t.end == Some(e)
    ensures r == Ok((e - s) * t.factor)
  {
    t.Stop(e);
    t.Start(s);
    r := t.Elapsed(now);
  }

  /** A `with Timer(...)` block: enter at `t0`, leave at `t1`. With the
      scripts' `Timer(output=logger.info, prefix=...)` the line reaches the
      logger. */
  method TimedBlock(prefix: string, sink: string, t0: int, t1: int)
    returns (elapsed: Result<int>, line: Result<Option<Emission>>)
    ensures elapsed == Ok(t1 - t0)
    ensures line == Ok(Some(Emission(sink, prefix, DefaultFormat, t1 - t0)))
  {
    var t := new Timer(1, Sink(sink), DefaultFormat, prefix);
    var same := t.Enter(t0);
    line := t.Exit(t1);
    elapsed := t.Elapsed(t1);
  }

  /** With neither output nor prefix nothing is emitted; with a prefix only,
      output goes to `print`; an empty prefix with `output=True` still
      yields a leading space. */
  method OutputDefaults(t0: int, t1: int)
    returns (silent: Result<Option<Emission>>, printed: Result<Option<Emission>>, bare: Result<Option<Emission>>)
    ensures silent == Ok(None)
    ensures printed == Ok(Some(Emission("print", "Testing", DefaultFormat, t1 - t0)))
    ensures bare == Ok(Some(Emission("print", "", DefaultFormat, t1 - t0)))
    ensures Text(bare.value.value)[0] == ' '

  {
    var a := new Timer(1, Unset, DefaultFormat, "");
    a.Start(t0);
    silent := a.Exit(t1);
    var b := new Timer(1, Unset, DefaultFormat, "Testing");
    b.Start(t0);
    printed := b.Exit(t1);
    var c := new Timer(1, Flag(true), DefaultFormat, "");
    c.Start(t0);
    bare := c.Exit(t1);
  }

  // ---------------------------------------------------------------------
  // The `timer` decorator

  /** A positional argument of `timer(...)`: a callable (named) or any other value. */
  datatype Arg = Callable(name: string) | Plain(text: string)

  /** How `timer`'s positional arguments bind: the first three fill
      `logger`, `level` and `fmt`; the rest are `func_or_func_args`. */
  datatype Binding = Binding(logger: Option<Arg>, level: Option<Arg>, fmt: Option<Arg>, extra: seq<Arg>)

  function Bind(args: seq<Arg>): (b: Binding)
    ensures b.extra == if |args| <= 3 then [] else args[3..]
    ensures |args| >= 1 ==> b.logger == Some(args[0])
    ensures |args| == 0 ==> b.logger == None
  {
    Binding(if |args| >= 1 then Some(args[0]) else None,
            if |args| >= 2 then Some(args[1]) else None,
            if |args| >= 3 then Some(args[2]) else None,
            if |args| <= 3 then [] else args[3..])
  }

  /** What a call of `timer(...)` returns: the wrapped function itself, or
      the decorator `wrapped_f` that still waits for the function. */
  datatype Decoration = Wrapped(function_name: string, binding: Binding) | Decorator(binding: Binding)

  /** `timer` as written: it wraps directly only when exactly one extra
      positional argument follows logger, level and fmt, and it is callable. */
  function TimerAsWritten(args: seq<Arg>): (d: Decoration)
    ensures d.binding == Bind(args)
    ensures d.Wrapped? <==> |args| == 4 && args[3].Callable?
  {
    var b := Bind(args);
    if |b.extra| == 1 && b.extra[0].Callable? then Wrapped(b.extra[0].name, b) else Decorator(b)
  }

  /** Used bare, as `@timer`, the function lands in `logger` and the call
      returns the decorator instead of the wrapped function. */
  lemma BareDecoratorMisbinds(f: string)
    ensures TimerAsWritten([Callable(f)]) == Decorator(Binding(Some(Callable(f)), None, None, []))
  {
  }

  /** `timer` as its dispatch evidently intends: a lone callable, given bare
      as `@timer`, is wrapped with the default settings; otherwise the rule
      as written applies. */
  function TimerDecorator(args: seq<Arg>): (d: Decoration)
    ensures d.Wrapped? <==> (|args| == 1 && args[0].Callable?) || (|args| == 4 && args[3].Callable?)
    ensures |args| == 1 && args[0].Callable? ==> d == Wrapped(args[0].name, Bind([]))
    ensures !(|args| == 1 && args[0].Callable?) ==> d == TimerAsWritten(args)
  {
    if |args| == 1 && args[0].Callable? then Wrapped(args[0].name, Bind([])) else TimerAsWritten(args)
  }

  /** What the wrapped function reports after each call. */
  datatype Report = Logged(function_name: string, execution_time: int) | Printed(function_name: string, execution_time: int)

  /** A call through the wrapper. The function runs inside a `Timer` built
      from the decorator's keyword arguments (`factor`, `output`, `fmt`,
      `prefix`; the clock is the readings `t0` and `t1`), which emits its own
      line on exit when its output resolves to a callable, whether or not
      the function raised. When the function returns, its result is passed
      on unchanged and the execution time goes to the logger when one was
      given, to `print` otherwise; when it raises, the exception propagates
      and nothing is reported. */
  method CallWrapped<X, Y>(f: X -> Result<Y>, x: X, name: string, hasLogger: bool,
                           factor: int, output: Output, fmt: Format, prefix: string, t0: int, t1: int)
    returns (out: Result<Y>, line: Result<Option<Emission>>, report: Option<Report>)
    ensures out == f(x)
    ensures var resolved := ResolveOutput(output, prefix);
      line == if resolved.Sink? then Ok(Some(Emission(resolved.name, prefix, fmt, (t1 - t0) * factor))) else Ok(None)
    ensures out.Raised? ==> report == None
    ensures out.Ok? ==> report == Some(if hasLogger then Logged(name, (t1 - t0) * factor) else Printed(name, (t1 - t0) * factor))
  {
    var t := new Timer(factor, output, fmt, prefix);
    var same := t.Enter(t0);
    out := f(x);
    line := t.Exit(t1);
    if out.Raised? {
      report := None;
      return;
    }
    var elapsed := t.Elapsed(t1);
    if hasLogger {
      report := Some(Logged(name, elapsed.value));
    } else {
      report := Some(Printed(name, elapsed.value));
    }
  }
}
