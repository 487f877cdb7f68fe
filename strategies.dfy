/**
 * The two wrappers `Ulogger` can build around a target: `exe_logger` logs
 * before and after the call, `exception_logger` logs a failure and then
 * re-raises it or returns `False`. Their effect on the logger is given as a
 * value: the outcome of the call and the records appended, in order.
 */
module Strategies {
  import opened Logging

  /** A Python exception: its class name, and whether the class derives from `Exception`. */
  datatype Error = Error(kind: string, isException: bool)

  // Errors the Python runtime raises in the decorator itself.
  const AttributeError := Error("AttributeError", true)
  const IndexError := Error("IndexError", true)
  const TypeError := Error("TypeError", true)

  /** The values passed to and returned by decorated functions. */
  datatype Value =
    | NoneValue
    | BoolValue(b: bool)
    | IntValue(i: int)
    | StrValue(s: string)
    | FunctionValue(f: Callable)

  /** How a call ends: it returns a value or raises an exception. */
  datatype Outcome = Returned(value: Value) | Raised(error: Error)

  /**
   * A Python function: its `__name__` and what calling it with given
   * arguments yields. Its own side effects are not modelled.
   */
  class Callable {
    const name: string
    const body: seq<Value> -> Outcome

    constructor (name: string, body: seq<Value> -> Outcome)
      ensures this.name == name && this.body == body
    {
      this.name := name;
      this.body := body;
    }
  }

  /** The closure a wrapper builder returns, with what it captured. */
  datatype Wrapper =
    | ExeWrapper(target: Value)
    | ExceptionWrapper(target: Value, reRaise: bool)

  /** What one call of a wrapper does: its outcome and the records it appends. */
  datatype Effect = Effect(outcome: Outcome, emitted: seq<Record>)

  /** `'{}() - {}'.format(name, text)`: the shape of every message; both parts can be read back. */
  function Tagged(name: string, text: string): (m: string)
    ensures |m| == |name| + 5 + |text|
    ensures m[..|name|] == name && m[|name|..|name| + 5] == "() - " && m[|name| + 5..] == text
  {
    name + "() - " + text
  }

  /** The record logged before the call: the function's name, then the start text. */
  function StartMessage(name: string): (m: string)
    ensures |m| == |name| + 26
    ensures m[..|name|] == name && m[|name|..|name| + 5] == "() - " && m[|name| + 5..] == "Starting execution..."
  {
    Tagged(name, "Starting execution...")
  }

  /** The record logged after a call that returned. */
  function EndMessage(name: string): (m: string)
    ensures |m| == |name| + 20
    ensures m[..|name|] == name && m[|name|..|name| + 5] == "() - " && m[|name| + 5..] == "Execution ended"
  {
    Tagged(name, "Execution ended")
  }

  /** The record logged for a caught exception: it names the exception's class right after "A ". */
  function FailureMessage(name: string, kind: string): (m: string)
    ensures |m| == |name| + 17 + |kind|
    ensures m[..|name|] == name && m[|name|..|name| + 7] == "() - A "
    ensures m[|name| + 7..|name| + 7 + |kind|] == kind && m[|name| + 7 + |kind|..] == " occurred."
  {
    var m := Tagged(name, "A " + kind + " occurred.");
    assert m[|name| + 5..] == "A " + kind + " occurred.";
    m
  }

  /** For one function name, the three messages are pairwise different. */
  lemma MessagesDiffer(name: string, kind: string)
    ensures StartMessage(name) != EndMessage(name)
    ensures StartMessage(name) != FailureMessage(name, kind)
    ensures EndMessage(name) != FailureMessage(name, kind)
  {
    var k := |name| + 5;
    assert StartMessage(name)[k] == 'S';
    assert EndMessage(name)[k] == 'E';
    assert FailureMessage(name, kind)[k] == 'A';
  }

  /**
   * One call of the closure `exe_logger` returns: an info record, the call,
   * and a second info record only if the call returned. A target without a
   * `__name__` fails on the first line, before anything is logged.
   */
  function ExeEffect(target: Value, args: seq<Value>): (e: Effect)
    ensures target.FunctionValue? ==> e.outcome == target.f.body(args)
    ensures !target.FunctionValue? ==> e == Effect(Raised(AttributeError), [])
    ensures forall i :: 0 <= i < |e.emitted| ==> e.emitted[i].level == INFO && !e.emitted[i].excInfo
    ensures |e.emitted| == (if !target.FunctionValue? then 0 else if e.outcome.Raised? then 1 else 2)
  {
    match target
    case FunctionValue(f) =>
      var o := f.body(args);
      if o.Raised? then Effect(o, [InfoRecord(StartMessage(f.name))])
      else Effect(o, [InfoRecord(StartMessage(f.name)), InfoRecord(EndMessage(f.name))])
    case _ => Effect(Raised(AttributeError), [])
  }

  /**
   * One call of the closure `exception_logger` returns. Only exceptions
   * deriving from `Exception` are caught; a caught one is logged and then
   * re-raised, or turned into `False`. Calling a target that is not a
   * function raises TypeError, and the handler then fails on its `__name__`.
   */
  function ExceptionEffect(target: Value, reRaise: bool, args: seq<Value>): (e: Effect)
    ensures target.FunctionValue? && (reRaise || target.f.body(args).Returned?) ==>
      e.outcome == target.f.body(args)
    ensures target.FunctionValue? && target.f.body(args).Raised? && !target.f.body(args).error.isException ==>
      e.outcome == target.f.body(args)
    ensures !target.FunctionValue? ==> e == Effect(Raised(AttributeError), [])
    ensures |e.emitted| <= 1
    ensures forall i :: 0 <= i < |e.emitted| ==> e.emitted[i].level == ERROR && e.emitted[i].excInfo
  {
    match target
    case FunctionValue(f) =>
      var o := f.body(args);
      if o.Returned? || !o.error.isException then Effect(o, [])
      else
        var logged := [ExceptionRecord(FailureMessage(f.name, o.error.kind))];
        if reRaise then Effect(o, logged) else Effect(Returned(BoolValue(false)), logged)
    case _ => Effect(Raised(AttributeError), [])
  }

  /** One call of a built wrapper. */
  function WrapperEffect(w: Wrapper, args: seq<Value>): (e: Effect)
    ensures |e.emitted| <= 2
  {
    match w
    case ExeWrapper(t) => ExeEffect(t, args)
    case ExceptionWrapper(t, reRaise) => ExceptionEffect(t, reRaise, args)
  }

  /** A successful call is logged as start, then end, and its result is passed on. */
  lemma ExeSuccessLogsStartAndEnd(f: Callable, args: seq<Value>)
    requires f.body(args).Returned?
    ensures ExeEffect(FunctionValue(f), args) ==
      Effect(f.body(args), [InfoRecord(StartMessage(f.name)), InfoRecord(EndMessage(f.name))])
  {
  }

  /** A failing call leaves the start record only, and the same exception propagates. */
  lemma ExeFailureLogsStartOnly(f: Callable, args: seq<Value>)
    requires f.body(args).Raised?
    ensures ExeEffect(FunctionValue(f), args) == Effect(f.body(args), [InfoRecord(StartMessage(f.name))])
    ensures forall i :: 0 <= i < |ExeEffect(FunctionValue(f), args).emitted| ==>
      ExeEffect(FunctionValue(f), args).emitted[i].message != EndMessage(f.name)
  {
  }

  /** A successful call is silent and its result is passed on. */
  lemma ExceptionSuccessIsSilent(f: Callable, reRaise: bool, args: seq<Value>)
    requires f.body(args).Returned?
    ensures ExceptionEffect(FunctionValue(f), reRaise, args) == Effect(f.body(args), [])
  {
  }

  /**
   * A call raising an `Exception` is logged once, naming the exception's
   * class; then it is re-raised, or `False` is returned.
   */
  lemma ExceptionFailureLogsOnce(f: Callable, reRaise: bool, args: seq<Value>)
    requires f.body(args).Raised? && f.body(args).error.isException
    ensures ExceptionEffect(FunctionValue(f), reRaise, args).emitted ==
      [ExceptionRecord(FailureMessage(f.name, f.body(args).error.kind))]
    ensures ExceptionEffect(FunctionValue(f), reRaise, args).outcome ==
      if reRaise then f.body(args) else Returned(BoolValue(false))
  {
  }
}
