/** Clients of `Logging.Logger` that replay the six groups of
    __tests__/logger.test.ts (levels ERROR, NOTICE, INFO, DEBUG, 2 and 0), for
    every entry and error object rather than the tests' `{ message: 'nice' }`,
    and show that the contracts decide them; then the trace cases. */
module LoggerScenarios {
  import opened Wrappers
  import opened JsStrings
  import opened JsObjects
  import opened Logging
  import opened LoggerProperties

  function Last(line: Line): (string, Value)
    requires |line| > 0
  {
    line[|line| - 1]
  }

  /** An ERROR logger writes for `error` only. */
  method ErrorLevel(err: Option<ErrorInfo>, entry: Record)
  {
    var console := new Console();
    var created := Logger.Create(Named("ERROR"), null, console);
    NamedLevelResolves(ERROR);
    var logger := created.value;
    logger.Error(err, entry);
    assert |console.lines| == 1;
    logger.Notice(entry);
    logger.Info(entry);
    logger.Debug(entry);
    assert |console.lines| == 1;
  }

  /** A NOTICE logger writes for `error` and `notice`, not for `info` or `debug`. */
  method NoticeLevel(err: Option<ErrorInfo>, entry: Record)
  {
    var console := new Console();
    var created := Logger.Create(Named("NOTICE"), null, console);
    NamedLevelResolves(NOTICE);
    var logger := created.value;
    logger.Error(err, entry);
    assert |console.lines| == 1;
    logger.Notice(entry);
    assert |console.lines| == 2;
    logger.Info(entry);
    logger.Debug(entry);
    assert |console.lines| == 2;
  }

  /** An INFO logger writes for `error`, `notice` and `info`, not for `debug`. */
  method InfoLevel(err: Option<ErrorInfo>, entry: Record)
  {
    var console := new Console();
    var created := Logger.Create(Named("INFO"), null, console);
    NamedLevelResolves(INFO);
    var logger := created.value;
    logger.Error(err, entry);
    assert |console.lines| == 1;
    logger.Notice(entry);
    assert |console.lines| == 2;
    logger.Info(entry);
    assert |console.lines| == 3;
    logger.Debug(entry);
    assert |console.lines| == 3;
  }

  /** A DEBUG logger writes for all four. */
  method DebugLevel(err: Option<ErrorInfo>, entry: Record)
  {
    var console := new Console();
    var created := Logger.Create(Named("DEBUG"), null, console);
    NamedLevelResolves(DEBUG);
    var logger := created.value;
    logger.Error(err, entry);
    assert |console.lines| == 1;
    logger.Notice(entry);
    assert |console.lines| == 2;
    logger.Info(entry);
    assert |console.lines| == 3;
    logger.Debug(entry);
    assert |console.lines| == 4;
  }

  /** Level 2 writes for `error` and `notice`, not for `info` or `debug`. */
  method LevelTwo(err: Option<ErrorInfo>, entry: Record)
  {
    var console := new Console();
    var created := Logger.Create(Numeric(2), null, console);
    var logger := created.value;
    logger.Error(err, entry);
    logger.Notice(entry);
    assert |console.lines| == 2;
    logger.Info(entry);
    logger.Debug(entry);
    assert |console.lines| == 2;
  }

  /** Level 0 writes for none of the four. */
  method LevelZero(err: Option<ErrorInfo>, entry: Record)
  {
    var console := new Console();
    var created := Logger.Create(Numeric(0), null, console);
    var logger := created.value;
    logger.Error(err, entry);
    logger.Notice(entry);
    logger.Info(entry);
    logger.Debug(entry);
    assert console.lines == [];
  }

  /** An unknown name yields no logger. */
  method UnknownLevel()
  {
    var console := new Console();
    var created := Logger.Create(Named("VERBOSE"), null, console);
    assert created.Failure?;
  }

  /** The trace header is read at each call: removing it between two calls
      changes the trace of the second line only. */
  method TraceReadPerCall(header: string, entry: Record)
    requires UniqueKeys(entry) && TraceKey !in Keys(entry)
  {
    var console := new Console();
    var request := new Request(map[TraceHeader := header]);
    var created := Logger.Create(Named("INFO"), request, console);
    NamedLevelResolves(INFO);
    var logger := created.value;
    assert logger.CurrentHeader() == Some(header);
    logger.Info(entry);
    request.headers := map[];
    assert logger.CurrentHeader() == None;
    logger.Info(entry);
    assert console.lines[0] == Emitted(INFO, None, entry, true, Some(header));
    assert console.lines[1] == Emitted(INFO, None, entry, true, None);
    TraceEndsLines(header, entry);
    assert Last(console.lines[0]) == (TraceKey, Str(TracePrefix + Replace(header, '/', ',')));
    assert Last(console.lines[1]) == (TraceKey, Str(TracePrefix));
  }

  /** A request assigned after construction is picked up by the next call,
      and removing it again stops the trace. */
  method RequestAssignedLater(header: string, entry: Record)
    requires UniqueKeys(entry) && TraceKey !in Keys(entry)
  {
    var console := new Console();
    var created := Logger.Create(Named("INFO"), null, console);
    NamedLevelResolves(INFO);
    var logger := created.value;
    logger.Info(entry);
    assert console.lines[0] == Emitted(INFO, None, entry, false, None);
    var request := new Request(map[TraceHeader := header]);
    logger.request := request;
    assert logger.CurrentHeader() == Some(header);
    logger.Info(entry);
    assert console.lines[1] == Emitted(INFO, None, entry, true, Some(header));
    logger.request := null;
    logger.Info(entry);
    assert console.lines[2] == Emitted(INFO, None, entry, false, None);
    TraceEndsLines(header, entry);
    assert Last(console.lines[1]) == (TraceKey, Str(TracePrefix + Replace(header, '/', ',')));
  }

  lemma TraceEndsLines(header: string, entry: Record)
    requires UniqueKeys(entry) && TraceKey !in Keys(entry)
    ensures var line := Emitted(INFO, None, entry, true, Some(header));
      |line| > 0 && Last(line) == (TraceKey, Str(TracePrefix + Replace(header, '/', ',')))
    ensures var line := Emitted(INFO, None, entry, true, None);
      |line| > 0 && Last(line) == (TraceKey, Str(TracePrefix))
  {
    TraceIsLast(INFO, None, entry, Some(header));
    TraceIsLast(INFO, None, entry, None);
    TraceValueReplacesSlashes(Some(header));
    TraceValueWithoutHeader();
  }
}
