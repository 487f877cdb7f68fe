/**
 * The part of Python's `logging.Logger` that the decorator relies on, reduced
 * to its observable state: the level set on it, the ordered list of handlers
 * attached to it and the sequence of records that were requested from it.
 * Formatting, timestamps, level filtering and the dispatch of records to the
 * handlers are not modelled: `records` is the sequence of logging calls made.
 */
module Logging {

  // Numeric levels of the `logging` module.
  const NOTSET := 0
  const DEBUG := 10
  const INFO := 20
  const WARNING := 30
  const ERROR := 40
  const CRITICAL := 50

  /** What `setLevel` was given: a number, or (as the fallback does) a string. */
  datatype LevelValue = LevelNumber(n: int) | LevelName(name: string)

  /** One logging request: its level, its text, and whether exception info is attached. */
  datatype Record = Record(level: int, message: string, excInfo: bool)

  /** `logger.info(message)` */
  function InfoRecord(message: string): (r: Record)
    ensures r.level == INFO && r.message == message && !r.excInfo
  {
    Record(INFO, message, false)
  }

  /** `logger.exception(message)`: an ERROR record carrying the current exception. */
  function ExceptionRecord(message: string): (r: Record)
    ensures r.level == ERROR && r.message == message && r.excInfo
  {
    Record(ERROR, message, true)
  }

  /** Where a handler writes. */
  datatype Sink = FileSink(path: string) | OtherSink(description: string)

  /** A handler object; handlers are compared by identity, as in Python. */
  class Handler {
    const sink: Sink

    constructor (sink: Sink)
      ensures this.sink == sink
    {
      this.sink := sink;
    }
  }

  predicate Distinct<T(==)>(s: seq<T>) {
    forall i, j :: 0 <= i < j < |s| ==> s[i] != s[j]
  }

  /**
   * The handler list after `addHandler(h)`: the library appends `h` only when
   * it is not attached already.
   */
  function AddNew(hs: seq<Handler>, h: Handler): (r: seq<Handler>)
    ensures |hs| <= |r| <= |hs| + 1 && r[..|hs|] == hs
    ensures h in r && forall i :: 0 <= i < |r| ==> r[i] in hs || r[i] == h
    ensures Distinct(hs) ==> Distinct(r)
  {
    if h in hs then hs else hs + [h]
  }

  /** The handler list after adding each of `hs`, in order, to `acc`. */
  function AddAll(acc: seq<Handler>, hs: seq<Handler>): (r: seq<Handler>)
    ensures |acc| <= |r| && r[..|acc|] == acc
    ensures forall i :: 0 <= i < |r| ==> r[i] in acc || r[i] in hs
    ensures forall i :: 0 <= i < |hs| ==> hs[i] in r
    ensures Distinct(acc) ==> Distinct(r)
    decreases |hs|
  {
    if hs == [] then acc else AddNew(AddAll(acc, hs[..|hs| - 1]), hs[|hs| - 1])
  }

  /** When nothing is added twice, adding in order is plain concatenation. */
  lemma {:induction false} AddAllOfDistinct(acc: seq<Handler>, hs: seq<Handler>)
    requires Distinct(acc + hs)
    ensures AddAll(acc, hs) == acc + hs
    decreases |hs|
  {
    if hs != [] {
      var init, last := hs[..|hs| - 1], hs[|hs| - 1];
      var pre := acc + init;
      assert acc + hs == pre + [last] by { assert hs == init + [last]; }
      forall i, j | 0 <= i < j < |pre| ensures pre[i] != pre[j] {
        assert pre[i] == (acc + hs)[i] && pre[j] == (acc + hs)[j];
      }
      AddAllOfDistinct(acc, init);
      forall k | 0 <= k < |pre| ensures pre[k] != last {
        assert pre[k] == (acc + hs)[k] && last == (acc + hs)[|pre|];
      }
    }
  }

  /** The state of one `logging.Logger` object. */
  class Logger {
    const name: string
    var level: LevelValue
    var handlers: seq<Handler>
    var records: seq<Record>

    /** A logger as `logging.getLogger` creates it for a new name. */
    constructor (name: string)
      ensures this.name == name && level == LevelNumber(NOTSET)
      ensures handlers == [] && records == []
    {
      this.name := name;
      level := LevelNumber(NOTSET);
      handlers := [];
      records := [];
    }

    /** `logger.handlers.clear()` */
    method ClearHandlers()
      modifies this`handlers
      ensures handlers == []
    {
      handlers := [];
    }

    /** `logger.setLevel(v)`, recording the value given. */
    method SetLevel(v: LevelValue)
      modifies this`level
      ensures level == v
    {
      level := v;
    }

    /** `logger.addHandler(h)` */
    method AddHandler(h: Handler)
      modifies this`handlers
      ensures handlers == AddNew(old(handlers), h)
    {
      if h !in handlers {
        handlers := handlers + [h];
      }
    }

    /** `logger.info(message)` */
    method Info(message: string)
      modifies this`records
      ensures records == old(records) + [InfoRecord(message)]
    {
      records := records + [InfoRecord(message)];
    }

    /** `logger.exception(message)` */
    method LogException(message: string)
      modifies this`records
      ensures records == old(records) + [ExceptionRecord(message)]
    {
      records := records + [ExceptionRecord(message)];
    }
  }
}
