/**
 * The `LEVELS` table and `create_logger`: look up the level by name, drop the
 * handlers the logger had, then attach a new file handler followed by the
 * caller's extra handlers, in order.
 */
module Factory {
  import opened Logging

  // The defaults of `create_logger`'s parameters.
  const DefaultName := "UsefulLogger"
  const DefaultLevel := "info"
  const DefaultPath := "ulog.log"

  /** `LEVELS`: lower-case level names to the numeric levels of `logging`. */
  const Levels: map<string, int> :=
    map["critical" := CRITICAL, "error" := ERROR, "warning" := WARNING, "info" := INFO, "debug" := DEBUG]

  /**
   * `LEVELS.get(level, 'info')`: the number for one of the five names, and
   * otherwise the string "info" itself (not the number `logging.INFO`).
   */
  function LevelFor(level: string): (v: LevelValue)
    ensures v.LevelNumber? <==> level in Levels
    ensures v.LevelNumber? ==> v.n in {DEBUG, INFO, WARNING, ERROR, CRITICAL}
    ensures v.LevelName? ==> v.name == "info"
  {
    if level in Levels then LevelNumber(Levels[level]) else LevelName("info")
  }

  /** Each of the five names gets the `logging` level of the same name. */
  lemma LevelTableEntries()
    ensures LevelFor("critical") == LevelNumber(CRITICAL)
    ensures LevelFor("error") == LevelNumber(ERROR)
    ensures LevelFor("warning") == LevelNumber(WARNING)
    ensures LevelFor("info") == LevelNumber(INFO)
    ensures LevelFor("debug") == LevelNumber(DEBUG)
  {
  }

  /** The five names map to five different levels, so the lookup loses nothing. */
  lemma LevelForInjective(a: string, b: string)
    requires a in Levels && b in Levels && LevelFor(a) == LevelFor(b)
    ensures a == b
  {
  }

  /**
   * Every other name, including an upper-case one, gets the string "info",
   * which is not the value the name "info" itself gets.
   */
  lemma UnknownLevelFallsBackToName(level: string)
    requires level !in Levels
    ensures LevelFor(level) == LevelName("info")
    ensures LevelFor(level) != LevelFor("info")
  {
  }

  /**
   * `create_logger(name, level, filepath, extra_handlers)`, applied to the
   * logger that `logging.getLogger(name)` returned.
   */
  method CreateLogger(logger: Logger, level: string, filepath: string, extraHandlers: seq<Handler>)
    returns (r: Logger)
    modifies logger
    ensures r == logger
    ensures logger.level == LevelFor(level)
    ensures |logger.handlers| >= 1 && fresh(logger.handlers[0])
    ensures logger.handlers[0].sink == FileSink(filepath)
    ensures logger.handlers == AddAll([logger.handlers[0]], extraHandlers)
    ensures logger.records == old(logger.records)
  {
    if logger.handlers != [] {
      logger.ClearHandlers();
    }
    logger.SetLevel(LevelFor(level));
    var fileHandler := new Handler(FileSink(filepath));
    logger.AddHandler(fileHandler);
    for i := 0 to |extraHandlers|
      invariant logger.handlers == AddAll([fileHandler], extraHandlers[..i])
      invariant logger.level == LevelFor(level)
      invariant logger.records == old(logger.records)
    {
      assert extraHandlers[..i + 1][..i] == extraHandlers[..i];
      logger.AddHandler(extraHandlers[i]);
    }
    assert extraHandlers[..|extraHandlers|] == extraHandlers;
    r := logger;
  }

  /**
   * With distinct extra handlers, the list `create_logger` leaves is the file
   * handler followed by the extra handlers, in the order given.
   */
  lemma HandlersInGivenOrder(fileHandler: Handler, extraHandlers: seq<Handler>)
    requires fileHandler !in extraHandlers && Distinct(extraHandlers)
    ensures AddAll([fileHandler], extraHandlers) == [fileHandler] + extraHandlers
  {
    var all := [fileHandler] + extraHandlers;
    forall i, j | 0 <= i < j < |all| ensures all[i] != all[j] {
      if i > 0 {
        assert all[i] == extraHandlers[i - 1] && all[j] == extraHandlers[j - 1];
      } else {
        assert all[j] == extraHandlers[j - 1];
      }
    }
    AddAllOfDistinct([fileHandler], extraHandlers);
  }

  /**
   * Calling `create_logger` twice on the same logger leaves one new file
   * handler followed by the extra handlers, not two copies of them.
   */
  method ReconfigureDoesNotAccumulate(level: string, filepath: string, extraHandlers: seq<Handler>)
    returns (hs: seq<Handler>)
    requires Distinct(extraHandlers)
    ensures |hs| == 1 + |extraHandlers|
    ensures hs[0].sink == FileSink(filepath) && hs[1..] == extraHandlers
  {
    var logger := new Logger(DefaultName);
    logger := CreateLogger(logger, level, filepath, extraHandlers);
    logger := CreateLogger(logger, level, filepath, extraHandlers);
    HandlersInGivenOrder(logger.handlers[0], extraHandlers);
    hs := logger.handlers;
  }
}
