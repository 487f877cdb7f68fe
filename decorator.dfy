/**
 * The `Ulogger` decorator object. Its first call receives the function to
 * decorate, builds a wrapper chosen by `ltype` and switches the object for
 * good from decorating to calling; every later call is forwarded to the
 * wrapper. `Step` gives one call as a value; the class `Ulogger` runs it on
 * mutable fields and a shared logger and is proved against `Step`.
 */
module Decorator {
  import opened Optional
  import opened Logging
  import opened Factory
  import opened Strategies

  /** `self.mode`: 'decorating' or 'calling'. */
  datatype Mode = Decorating | Calling

  /** What `__call__` gives back: the decorator object itself, or the end of a forwarded call. */
  datatype Reply = ReturnsSelf | Finishes(outcome: Outcome)

  /** The arguments fixed at construction: `ltype`, and `re_raise` if one was passed. */
  datatype Config = Config(ltype: string, reRaise: Option<bool>)

  /** The fields `__call__` updates: `self.mode`, and `self.func` if it was ever set. */
  datatype State = State(mode: Mode, func: Option<Wrapper>)

  /** One call: its reply, the state after it, and the records it appended. */
  datatype Transition = Transition(reply: Reply, next: State, emitted: seq<Record>)

  /** The state `__init__` leaves. */
  const Initial := State(Decorating, None)

  /**
   * The invariant of a decorator object: no wrapper while decorating, and a
   * wrapper only of the kind its `ltype` names, holding the configured
   * `re_raise` (default true).
   */
  predicate Fits(cfg: Config, s: State)
    ensures Fits(cfg, s) && s.func.Some? ==> cfg.ltype in {"execution", "exception"}
    ensures Fits(cfg, s) && s.func.Some? && s.func.value.ExceptionWrapper? && cfg.reRaise.None? ==>
      s.func.value.reRaise
  {
    && (s.mode == Decorating ==> s.func.None?)
    && (s.func.Some? ==>
          || (cfg.ltype == "execution" && s.func.value.ExeWrapper?)
          || (cfg.ltype == "exception" && s.func.value.ExceptionWrapper?
              && s.func.value.reRaise == cfg.reRaise.GetOr(true)))
  }

  /**
   * One `__call__(*args)`. While decorating, `args[0]` is the target; the
   * index and the builder's signature are checked before anything changes.
   * An `ltype` other than 'execution' and 'exception' builds nothing, yet the
   * mode still flips. While calling, an unset `func` is an AttributeError.
   */
  function Step(cfg: Config, s: State, args: seq<Value>): (t: Transition)
    ensures s.mode == Calling ==> t.next == s
    ensures t.reply == ReturnsSelf <==> s.mode == Decorating && t.next.mode == Calling
    ensures s.mode == Decorating ==> t.emitted == []
    ensures t.next.func != s.func ==>
      s.mode == Decorating && cfg.ltype in {"execution", "exception"} && |args| > 0 &&
      t.next.func.Some? && t.next.func.value.target == args[0]
    ensures s.mode == Decorating && cfg.ltype !in {"execution", "exception"} ==>
      t == Transition(ReturnsSelf, State(Calling, s.func), [])
    ensures |t.emitted| <= 2
    ensures Fits(cfg, s) ==> Fits(cfg, t.next)
  {
    if s.mode == Decorating then
      if cfg.ltype == "execution" then
        if |args| == 0 then Transition(Finishes(Raised(IndexError)), s, [])
        else if cfg.reRaise.Some? then Transition(Finishes(Raised(TypeError)), s, [])
        else Transition(ReturnsSelf, State(Calling, Some(ExeWrapper(args[0]))), [])
      else if cfg.ltype == "exception" then
        if |args| == 0 then Transition(Finishes(Raised(IndexError)), s, [])
        else Transition(ReturnsSelf, State(Calling, Some(ExceptionWrapper(args[0], cfg.reRaise.GetOr(true)))), [])
      else
        Transition(ReturnsSelf, State(Calling, s.func), [])
    else
      match s.func
      case None => Transition(Finishes(Raised(AttributeError)), s, [])
      case Some(w) =>
        var e := WrapperEffect(w, args);
        Transition(Finishes(e.outcome), s, e.emitted)
  }

  /** A sequence of calls: the final state, the reply to each call, and every record appended. */
  datatype Trace = Trace(final: State, replies: seq<Reply>, emitted: seq<Record>)

  function Run(cfg: Config, s: State, calls: seq<seq<Value>>): (tr: Trace)
    ensures |tr.replies| == |calls|
    ensures |tr.emitted| <= 2 * |calls|
    ensures Fits(cfg, s) ==> Fits(cfg, tr.final)
    decreases |calls|
  {
    if calls == [] then Trace(s, [], [])
    else
      var t := Step(cfg, s, calls[0]);
      var rest := Run(cfg, t.next, calls[1..]);
      Trace(rest.final, [t.reply] + rest.replies, t.emitted + rest.emitted)
  }

  /** Once calling, no sequence of calls brings the object back to decorating or changes `func`. */
  lemma {:induction false} CallingIsPermanent(cfg: Config, s: State, calls: seq<seq<Value>>)
    requires s.mode == Calling
    ensures Run(cfg, s, calls).final == s
    ensures forall i :: 0 <= i < |calls| ==> Run(cfg, s, calls).replies[i] != ReturnsSelf
    decreases |calls|
  {
    if calls != [] {
      CallingIsPermanent(cfg, s, calls[1..]);
    }
  }

  /** Forwarding to an unset `func` fails every time and logs nothing. */
  lemma {:induction false} UnsetFuncAlwaysFails(cfg: Config, calls: seq<seq<Value>>)
    ensures Run(cfg, State(Calling, None), calls).emitted == []
    ensures forall i :: 0 <= i < |calls| ==>
      Run(cfg, State(Calling, None), calls).replies[i] == Finishes(Raised(AttributeError))
    decreases |calls|
  {
    if calls != [] {
      UnsetFuncAlwaysFails(cfg, calls[1..]);
      var rest := Run(cfg, State(Calling, None), calls[1..]);
      assert Run(cfg, State(Calling, None), calls).replies == [Finishes(Raised(AttributeError))] + rest.replies;
    }
  }

  /**
   * With any `ltype` other than 'execution' and 'exception' (the default
   * 'exe' among them), decorating succeeds but leaves `func` unset, so every
   * later call raises AttributeError, and nothing is ever logged.
   */
  lemma UnknownLtypeIsDead(cfg: Config, calls: seq<seq<Value>>)
    requires cfg.ltype !in {"execution", "exception"} && |calls| >= 1
    ensures Run(cfg, Initial, calls).final == State(Calling, None)
    ensures Run(cfg, Initial, calls).replies[0] == ReturnsSelf
    ensures forall i :: 1 <= i < |calls| ==> Run(cfg, Initial, calls).replies[i] == Finishes(Raised(AttributeError))
    ensures Run(cfg, Initial, calls).emitted == []
  {
    UnsetFuncAlwaysFails(cfg, calls[1..]);
    CallingIsPermanent(cfg, State(Calling, None), calls[1..]);
  }

  /**
   * `@Ulogger('execution')` applied to `f`, then one call: the decoration
   * returns the object and logs nothing, the call returns `f`'s result, with
   * two records if it returned and one if it raised.
   */
  lemma ExecutionDecoratorEndToEnd(f: Callable, args: seq<Value>)
    ensures Run(Config("execution", None), Initial, [[FunctionValue(f)], args]) ==
      Trace(State(Calling, Some(ExeWrapper(FunctionValue(f)))),
            [ReturnsSelf, Finishes(f.body(args))],
            if f.body(args).Returned? then [InfoRecord(StartMessage(f.name)), InfoRecord(EndMessage(f.name))]
            else [InfoRecord(StartMessage(f.name))])
  {
    var cfg := Config("execution", None);
    var s1 := State(Calling, Some(ExeWrapper(FunctionValue(f))));
    var e := ExeEffect(FunctionValue(f), args);
    assert Step(cfg, Initial, [FunctionValue(f)]) == Transition(ReturnsSelf, s1, []);
    assert Step(cfg, s1, args) == Transition(Finishes(f.body(args)), s1, e.emitted);
    assert [args][1..] == [];
    assert Run(cfg, s1, [args]) == Trace(s1, [Finishes(f.body(args))], e.emitted);
    assert [[FunctionValue(f)], args][1..] == [args];
    if f.body(args).Returned? {
      ExeSuccessLogsStartAndEnd(f, args);
    } else {
      ExeFailureLogsStartOnly(f, args);
    }
  }

  /**
   * `@Ulogger('exception')`, with or without a `re_raise` argument, applied
   * to `f`, then one call that raises an `Exception`: exactly one exception
   * record, then the same exception (the default) or `False`.
   */
  lemma ExceptionDecoratorOnFailure(f: Callable, reRaise: Option<bool>, args: seq<Value>)
    requires f.body(args).Raised? && f.body(args).error.isException
    ensures Run(Config("exception", reRaise), Initial, [[FunctionValue(f)], args]).emitted ==
      [ExceptionRecord(FailureMessage(f.name, f.body(args).error.kind))]
    ensures Run(Config("exception", reRaise), Initial, [[FunctionValue(f)], args]).replies ==
      [ReturnsSelf, Finishes(if reRaise.GetOr(true) then f.body(args) else Returned(BoolValue(false)))]
  {
  }

  /** A `Ulogger` object; `logger` is the logger it shares with others. */
  class Ulogger {
    const ltype: string
    const logger: Logger
    const reRaise: Option<bool>
    var mode: Mode
    var func: Option<Wrapper>

    function Cfg(): Config {
      Config(ltype, reRaise)
    }

    ghost function Current(): State
      reads this
    {
      State(mode, func)
    }

    ghost predicate Valid()
      reads this
    {
      Fits(Cfg(), Current())
    }

    /**
     * `Ulogger(ltype, logger, re_raise)`: without a logger, one is made at
     * once by `create_logger()` with its defaults.
     */
    constructor (ltype: string, logger: Logger?, reRaise: Option<bool>)
      ensures Valid() && Current() == Initial
      ensures this.ltype == ltype && this.reRaise == reRaise
      ensures logger != null ==> this.logger == logger
      ensures logger == null ==>
        && fresh(this.logger) && this.logger.name == DefaultName
        && this.logger.level == LevelNumber(INFO) && this.logger.records == []
        && |this.logger.handlers| == 1 && this.logger.handlers[0].sink == FileSink(DefaultPath)
    {
      var lg: Logger;
      if logger == null {
        lg := new Logger(DefaultName);
        lg := CreateLogger(lg, DefaultLevel, DefaultPath, []);
      } else {
        lg := logger;
      }
      this.ltype := ltype;
      this.logger := lg;
      this.reRaise := reRaise;
      mode := Decorating;
      func := None;
    }

    /** `__call__(*args)` */
    method Call(args: seq<Value>) returns (r: Reply)
      requires Valid()
      modifies this, logger
      ensures Valid()
      ensures r == Step(Cfg(), old(Current()), args).reply
      ensures Current() == Step(Cfg(), old(Current()), args).next
      ensures logger.records == old(logger.records) + Step(Cfg(), old(Current()), args).emitted
      ensures logger.handlers == old(logger.handlers) && logger.level == old(logger.level)
    {
      if mode == Decorating {
        if ltype == "execution" {
          if |args| == 0 {
            return Finishes(Raised(IndexError));
          }
          if reRaise.Some? {
            // exe_logger takes no re_raise argument
            return Finishes(Raised(TypeError));
          }
          func := Some(ExeWrapper(args[0]));
        } else if ltype == "exception" {
          if |args| == 0 {
            return Finishes(Raised(IndexError));
          }
          func := Some(ExceptionWrapper(args[0], reRaise.GetOr(true)));
        }
        mode := Calling;
        return ReturnsSelf;
      }
      match func
      case None =>
        r := Finishes(Raised(AttributeError));
      case Some(w) =>
        var o := Invoke(w, args);
        r := Finishes(o);
    }

    /** `self.func(*args)` for a wrapper that was built. */
    method Invoke(w: Wrapper, args: seq<Value>) returns (o: Outcome)
      modifies logger
      ensures o == WrapperEffect(w, args).outcome
      ensures logger.records == old(logger.records) + WrapperEffect(w, args).emitted
      ensures logger.handlers == old(logger.handlers) && logger.level == old(logger.level)
    {
      match w
      case ExeWrapper(t) =>
        o := RunExe(t, args);
      case ExceptionWrapper(t, rr) =>
        o := RunException(t, rr, args);
    }

    /** The closure `exe_logger(target)` returns, called with `args`. */
    method RunExe(target: Value, args: seq<Value>) returns (o: Outcome)
      modifies logger
      ensures o == ExeEffect(target, args).outcome
      ensures logger.records == old(logger.records) + ExeEffect(target, args).emitted
      ensures logger.handlers == old(logger.handlers) && logger.level == old(logger.level)
    {
      if !target.FunctionValue? {
        return Raised(AttributeError);
      }
      var f := target.f;
      logger.Info(StartMessage(f.name));
      o := f.body(args);
      if o.Raised? {
        return;
      }
      logger.Info(EndMessage(f.name));
    }

    /** The closure `exception_logger(target, re_raise)` returns, called with `args`. */
    method RunException(target: Value, reRaise: bool, args: seq<Value>) returns (o: Outcome)
      modifies logger
      ensures o == ExceptionEffect(target, reRaise, args).outcome
      ensures logger.records == old(logger.records) + ExceptionEffect(target, reRaise, args).emitted
      ensures logger.handlers == old(logger.handlers) && logger.level == old(logger.level)
    {
      if !target.FunctionValue? {
        return Raised(AttributeError);
      }
      var f := target.f;
      o := f.body(args);
      if o.Raised? && o.error.isException {
        logger.LogException(FailureMessage(f.name, o.error.kind));
        if !reRaise {
          o := Returned(BoolValue(false));
        }
      }
    }
  }
}
