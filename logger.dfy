/**
 * The level filter of the application logger (src/utils/logger.js). Formatting, timestamps,
 * file rotation and console colours are not modelled: a written line is recorded as the
 * level and message it was made from.
 */
module Logger {
  import opened Wrappers

  /** `Object.values(LOG_LEVELS)`, in declaration order: the most severe first. */
  const Levels: seq<string> := ["ERROR", "WARN", "INFO", "DEBUG"]

  const DefaultLevel: string := "INFO"

  /** `Object.values(LOG_LEVELS).indexOf(level)`: the position of `level` in `Levels`, or -1. */
  function LevelIndex(level: string): (r: int)
    ensures -1 <= r < |Levels|
    ensures r >= 0 ==> Levels[r] == level
    ensures r == -1 <==> level !in Levels
  {
    if level == "ERROR" then 0
    else if level == "WARN" then 1
    else if level == "INFO" then 2
    else if level == "DEBUG" then 3
    else -1
  }

  /** The constructor's `options` argument; `None` is an option that was not given. */
  datatype LoggerOptions = LoggerOptions(logToFile: Option<bool>, logToConsole: Option<bool>, logLevel: Option<string>)

  /** One line handed to the file or the console. */
  datatype LogLine = LogLine(level: string, message: string)

  class Logger {
    const logToFile: bool
    const logToConsole: bool
    const logLevel: string
    /** Lines appended to the log file, oldest first. */
    var fileLines: seq<LogLine>
    /** Lines written to the console, oldest first. */
    var consoleLines: seq<LogLine>

    /** Missing flags default to true; a missing or empty level defaults to INFO. */
    constructor (options: LoggerOptions)
      ensures logToFile == options.logToFile.GetOr(true)
      ensures logToConsole == options.logToConsole.GetOr(true)
      ensures logLevel == (if options.logLevel.Some? && options.logLevel.value != "" then options.logLevel.value else DefaultLevel)
      ensures fileLines == [] && consoleLines == []
    {
      logToFile := options.logToFile.GetOr(true);
      logToConsole := options.logToConsole.GetOr(true);
      logLevel := if options.logLevel.Some? && options.logLevel.value != "" then options.logLevel.value else DefaultLevel;
      fileLines := [];
      consoleLines := [];
    }

    /** `shouldLog(level)`: the level's index does not exceed the configured level's index. */
    predicate ShouldLog(level: string) {
      LevelIndex(level) <= LevelIndex(logLevel)
    }

    /** `log(level, message)`: nothing happens when filtered; otherwise the line goes to each enabled sink. */
    method Log(level: string, message: string)
      modifies this
      ensures !ShouldLog(level) ==> fileLines == old(fileLines) && consoleLines == old(consoleLines)
      ensures ShouldLog(level) ==>
        && fileLines == old(fileLines) + (if logToFile then [LogLine(level, message)] else [])
        && consoleLines == old(consoleLines) + (if logToConsole then [LogLine(level, message)] else [])
    {
      if !ShouldLog(level) {
        return;
      }
      var line := LogLine(level, message);
      if logToFile {
        fileLines := fileLines + [line];
      }
      if logToConsole {
        consoleLines := consoleLines + [line];
      }
    }

    method Error(message: string)
      modifies this
      ensures fileLines == old(fileLines) + (if logToFile && ShouldLog("ERROR") then [LogLine("ERROR", message)] else [])
      ensures consoleLines == old(consoleLines) + (if logToConsole && ShouldLog("ERROR") then [LogLine("ERROR", message)] else [])
    {
      Log("ERROR", message);
    }

    method Warn(message: string)
      modifies this
      ensures fileLines == old(fileLines) + (if logToFile && ShouldLog("WARN") then [LogLine("WARN", message)] else [])
      ensures consoleLines == old(consoleLines) + (if logToConsole && ShouldLog("WARN") then [LogLine("WARN", message)] else [])
    {
      Log("WARN", message);
    }

    method Info(message: string)
      modifies this
      ensures fileLines == old(fileLines) + (if logToFile && ShouldLog("INFO") then [LogLine("INFO", message)] else [])
      ensures consoleLines == old(consoleLines) + (if logToConsole && ShouldLog("INFO") then [LogLine("INFO", message)] else [])
    {
      Log("INFO", message);
    }

    method Debug(message: string)
      modifies this
      ensures fileLines == old(fileLines) + (if logToFile && ShouldLog("DEBUG") then [LogLine("DEBUG", message)] else [])
      ensures consoleLines == old(consoleLines) + (if logToConsole && ShouldLog("DEBUG") then [LogLine("DEBUG", message)] else [])
    {
      Log("DEBUG", message);
    }
  }

  /** Under a known configured level, the known levels pass exactly up to it, in the order ERROR < WARN < INFO < DEBUG. */
  lemma KnownLevelsPassUpToConfigured(l: Logger, i: nat)
    requires l.logLevel in Levels && i < |Levels|
    ensures l.ShouldLog(Levels[i]) <==> i <= LevelIndex(l.logLevel)
  {
  }

  /** With the default level INFO, ERROR, WARN and INFO lines are written and DEBUG lines are not. */
  lemma DefaultLevelSuppressesDebug(l: Logger)
    requires l.logLevel == DefaultLevel
    ensures l.ShouldLog("ERROR") && l.ShouldLog("WARN") && l.ShouldLog("INFO")
    ensures !l.ShouldLog("DEBUG")
  {
  }

  /** An unknown configured level (index -1) suppresses every known level and lets only unknown levels through. */
  lemma UnknownConfiguredLevel(l: Logger, level: string)
    requires l.logLevel !in Levels
    ensures l.ShouldLog(level) <==> level !in Levels
  {
  }

  /** A message level that is not a level name (index -1) passes whatever known level is configured. */
  lemma UnknownMessageLevelPasses(l: Logger, level: string)
    requires l.logLevel in Levels && level !in Levels
    ensures l.ShouldLog(level)
  {
  }

  /**
   * The one-argument call `logger.log(text)` at the start of the prompt packer passes its text
   * as the level; the text is not a level name, so the line is written under any configured level.
   */
  lemma OneArgumentLogPasses(l: Logger, count: string)
    ensures l.ShouldLog("Original messages count: " + count)
  {
    var text := "Original messages count: " + count;
    assert text[0] == 'O';
    assert text !in Levels by {
      assert Levels[0][0] == 'E' && Levels[1][0] == 'W' && Levels[2][0] == 'I' && Levels[3][0] == 'D';
    }
  }
}
