# ulogger: a Dafny model of the `Ulogger` logging decorator

This project models `udec/ulogger.py`: the `LEVELS` table, `create_logger`,
and the `Ulogger` decorator class with its two wrapper builders,
`exe_logger` and `exception_logger`.

- A `logging.Logger` is reduced to its level, its ordered handler list and the
  sequence of records requested from it (`Logging.Logger`). Each record is a
  level, a message and an "exception info attached" flag.
- The function being decorated is a `Callable`: its `__name__` plus a total
  function from arguments to an `Outcome`. An outcome is `Returned(value)` or
  `Raised(error)`. An error carries its class name and whether that class
  derives from `Exception`, since only those are caught by `except Exception`.
- `create_logger` (`Factory.CreateLogger`) is imperative. It clears the handler
  list if there are handlers, sets the level from `LevelFor`, then adds a new
  file handler and each extra handler in a loop. `addHandler` skips a handler
  that is already attached, so the result is `AddAll([file handler], extra)`.
  When the extra handlers are distinct, this is `[file handler] + extra`
  (`Factory.HandlersInGivenOrder`).
- The level lookup falls back to the string `"info"` (`LevelName("info")`), not
  to the number `logging.INFO`. The model keeps that literally.
- One call of the decorator object is the pure transition `Decorator.Step`.
  `Decorator.Run` folds it over a sequence of calls. The class
  `Decorator.Ulogger` has the mutable fields `mode` and `func` and a shared
  `logger`. Its `Call`, `RunExe` and `RunException` methods make the same
  updates step by step and are proved equal to `Step`, `ExeEffect` and
  `ExceptionEffect`.
- The odd cases of the code are kept:
  - Only `'execution'` and `'exception'` build a wrapper. The default `ltype`
    `'exe'` builds no wrapper, but the mode still flips, so every later call
    raises AttributeError and nothing is logged (`Decorator.UnknownLtypeIsDead`).
  - With `'execution'` or `'exception'`, a decorating call with no argument
    raises IndexError and changes nothing. With any other `ltype` the
    arguments are not read.
  - A `re_raise` argument given with `'execution'` makes `exe_logger` raise
    TypeError, and nothing changes.
  - On a raise, the execution wrapper has already logged the start record, so
    exactly one record is left and the exception propagates.
  - A decorated value that is not a function has no `__name__`. Both wrappers
    then raise AttributeError before logging anything.
  - The logger is created once, in `__init__`, when none is passed.

## Model

| member | source | states |
|---|---|---|
| Logging.Logger.constructor | udec/ulogger.py:29 | a new named logger has no handlers, no records and level NOTSET |
| Logging.Logger.ClearHandlers | udec/ulogger.py:30 | the handler list becomes empty |
| Logging.Logger.SetLevel | udec/ulogger.py:31 | the level becomes exactly the value given, number or string |
| Logging.Logger.AddHandler | udec/ulogger.py:40-42 | the handler list becomes AddNew of the old list and the handler |
| Logging.InfoRecord | udec/ulogger.py:78 | what `logger.info` records: an INFO record with the message and no exception info |
| Logging.ExceptionRecord | udec/ulogger.py:90 | what `logger.exception` records: an ERROR record with the message and exception info |
| Logging.Handler.constructor | udec/ulogger.py:35 | a new handler writes to the sink it was given (the file handler names its path) |
| Logging.Logger.Info | udec/ulogger.py:78 | appends exactly one INFO record with the message and no exception info |
| Logging.Logger.LogException | udec/ulogger.py:90 | appends exactly one ERROR record with the message and exception info |
| Logging.AddNew | udec/ulogger.py:40 | adding a handler keeps the old list as a prefix, grows it by at most one, contains the handler and nothing else new, and keeps the list duplicate-free |
| Logging.AddAll | udec/ulogger.py:40-42 | adding handlers in order keeps the starting list as a prefix, contains exactly the old and added handlers, and keeps the list duplicate-free |
| Logging.AddAllOfDistinct | udec/ulogger.py:40-42 | when no handler repeats, adding in order equals plain concatenation |
| Factory.LevelFor | udec/ulogger.py:17-23 | the result is a number exactly for the five known names, one of the five logging levels; otherwise it is the string "info" |
| Factory.LevelTableEntries | udec/ulogger.py:17-23 | each of the five names gets the logging level of the same name |
| Factory.LevelForInjective | udec/ulogger.py:17-23 | two known names with the same level are the same name |
| Factory.UnknownLevelFallsBackToName | udec/ulogger.py:31 | any other name gets the string "info", which differs from what the name "info" gets |
| Factory.CreateLogger | udec/ulogger.py:25-43 | returns the same logger; its level is LevelFor(level); its handlers are a fresh file handler for the path followed by the extra handlers, whatever was attached before; the records are untouched |
| Factory.HandlersInGivenOrder | udec/ulogger.py:40-42 | with distinct extra handlers, the handler list is exactly the file handler followed by the extra handlers, in the order given |
| Factory.ReconfigureDoesNotAccumulate | udec/ulogger.py:29-30 | for any level and path, calling create_logger twice on one new logger leaves exactly one file handler for the path followed by the distinct extra handlers, in order |
| Strategies.Tagged | udec/ulogger.py:78 | a message is "<name>() - <text>", and the name and the text can be read back from it |
| Strategies.StartMessage | udec/ulogger.py:78 | the start message is the function name, then "() - ", then "Starting execution..." |
| Strategies.EndMessage | udec/ulogger.py:80 | the end message is the function name, then "() - ", then "Execution ended" |
| Strategies.FailureMessage | udec/ulogger.py:90 | the failure message is the function name, "() - A ", the exception's class name, then " occurred." |
| Strategies.MessagesDiffer | udec/ulogger.py:78-90 | the start, end and failure messages for one name are pairwise different |
| Strategies.ExeEffect | udec/ulogger.py:75-82 | the execution wrapper returns the target's outcome unchanged and logs only INFO records: two on return, one on a raise; a target without a name raises AttributeError and logs nothing |
| Strategies.ExceptionEffect | udec/ulogger.py:84-95 | the exception wrapper logs at most one record, an ERROR one with exception info; its outcome equals the target's unless an Exception was caught with re_raise false; a target without a name raises AttributeError and logs nothing |
| Strategies.WrapperEffect | udec/ulogger.py:72 | a forwarded call appends at most two records |
| Strategies.ExeSuccessLogsStartAndEnd | udec/ulogger.py:77-81 | on success: exactly the start record then the end record, and the target's result |
| Strategies.ExeFailureLogsStartOnly | udec/ulogger.py:78-80 | on a raise: only the start record, no "Execution ended" record, and the same exception |
| Strategies.ExceptionSuccessIsSilent | udec/ulogger.py:86-88 | on success: no records and the target's result |
| Strategies.ExceptionFailureLogsOnce | udec/ulogger.py:89-94 | on an Exception: exactly one record "<name>() - A <Kind> occurred.", then the same exception if re_raise, else False |
| Decorator.Fits | udec/ulogger.py:66-69 | in a state satisfying the invariant, func is set only for 'execution' or 'exception', and an exception wrapper built without a re_raise argument re-raises (udec/ulogger.py:84 default) |
| Decorator.Step | udec/ulogger.py:64-73 | a call while calling never changes the state; the reply is the object itself exactly when the call moves decorating to calling; decorating never logs; func changes only while decorating, only for 'execution' or 'exception', and then wraps args[0]; any other ltype just flips the mode; the invariant Fits is preserved |
| Decorator.Run | udec/ulogger.py:64-73 | one reply per call, at most two records per call, and Fits holds throughout |
| Decorator.CallingIsPermanent | udec/ulogger.py:65-72 | once calling, no sequence of calls returns to decorating, changes func, or returns the object |
| Decorator.UnsetFuncAlwaysFails | udec/ulogger.py:72 | with func unset every call raises AttributeError and nothing is logged |
| Decorator.UnknownLtypeIsDead | udec/ulogger.py:54-72 | for any ltype other than 'execution' and 'exception', the first call returns the object, func stays unset, every later call raises AttributeError, and nothing is logged |
| Decorator.ExecutionDecoratorEndToEnd | udec/ulogger.py:64-82 | decorating with 'execution' then calling gives the object, then the target's outcome, with two records on success and one on a raise |
| Decorator.ExceptionDecoratorOnFailure | udec/ulogger.py:64-95 | decorating with 'exception', with or without re_raise, then a failing call logs one exception record and re-raises (the default) or returns False |
| Decorator.Ulogger.constructor | udec/ulogger.py:54-62 | starts decorating with no func; keeps a given logger, or else creates the default one (name UsefulLogger, INFO level, a single ulog.log file handler) |
| Decorator.Ulogger.Call | udec/ulogger.py:64-73 | the reply, the new mode and func, and the appended records are those of Step; the handlers and level are untouched; Fits is kept |
| Decorator.Ulogger.Invoke | udec/ulogger.py:72 | forwarding to a built wrapper has exactly the wrapper's effect |
| Decorator.Ulogger.RunExe | udec/ulogger.py:77-81 | the execution closure's outcome and appended records are those of ExeEffect |
| Decorator.Ulogger.RunException | udec/ulogger.py:86-94 | the exception closure's outcome and appended records are those of ExceptionEffect |

## Left out

- File system work (`Path.exists`, `touch`) and the `FileHandler`/`Formatter` setup with its 80-`=` format string: these are I/O and formatting inside the logging library. The file handler is modelled only as a fresh handler naming its path.
- The global logger registry behind `logging.getLogger`: `CreateLogger` takes the logger that the registry returned. The default logger `__init__` creates is modelled as a new logger named "UsefulLogger".
- `Logger.hasHandlers` also looks at ancestor loggers. The model checks only the logger's own list. Clearing an empty list changes nothing, so the result is the same.
- Level filtering, timestamps, traceback capture and dispatch of records to handlers: `records` is the sequence of logging calls made. Whether the library accepts the string "info" as a level is not modelled; the level is the value passed in.
- `functools.wraps` metadata copying: only the function's name is used, in the messages.
- Python's variadic forwarding of `*self.args, **self.kwargs`: the extra arguments are one optional boolean `re_raise`. Extra arguments of other shapes are not modelled.
- Side effects of the decorated function itself, including any logging it does: a target is a pure function from arguments to an outcome.
- Decorating a value that is callable but not a plain function (such as another `Ulogger` object) is not modelled: `Value` has no such variant.
- The commented-out function-style `exception_logger` at the end of the file is dead code.
- Thread safety of the mode switch: the code has no concurrency logic.
