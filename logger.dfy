/**
 * packages/agent-kit/src/logger.ts: the pure part of the per-component logger.
 * The level threshold, the console prefix and stream, the log files an entry
 * goes to, and the data an error() call records. The clock, the directory
 * creation and the file appends are not modelled.
 */
module Logger {

  import opened Wrappers
  import opened Json
  import Text

  datatype Level = Debug | Info | Warn | Error

  /** LEVEL_ORDER. */
  function Order(l: Level): nat {
    match l
    case Debug => 10
    case Info => 20
    case Warn => 30
    case Error => 40
  }

  /** LEVEL_ORDER is a strict ranking: debug < info < warn < error. */
  lemma OrderRanks(a: Level, b: Level)
    ensures Order(a) == Order(b) <==> a == b
    ensures Order(Debug) < Order(Info) < Order(Warn) < Order(Error)
  {
  }

  /**
   * parseLogLevel: the lower-cased variable, or "" when unset. The three
   * words debug, warn and error only have ASCII letters, and no other
   * character lower-cases to one of them, so ASCII folding gives the same match.
   */
  function ParseLogLevel(raw: Option<string>): Level {
    var s := Text.Lower(raw.GetOr(""));
    if s == "debug" then Debug
    else if s == "warn" then Warn
    else if s == "error" then Error
    else Info
  }

  /** debug, warn and error are recognised in any case; anything else, absent or "info" included, is info. */
  lemma ParseLogLevelCases(raw: Option<string>)
    ensures ParseLogLevel(raw) == Debug <==> raw.Some? && Text.Lower(raw.value) == "debug"
    ensures ParseLogLevel(raw) == Warn <==> raw.Some? && Text.Lower(raw.value) == "warn"
    ensures ParseLogLevel(raw) == Error <==> raw.Some? && Text.Lower(raw.value) == "error"
    ensures raw.None? ==> ParseLogLevel(raw) == Info
  {
    if raw.None? {
      assert Text.Lower("") == "";
    }
  }

  /** shouldLog: the entry's level is at least the minimum level. */
  predicate ShouldLog(min: Level, l: Level) {
    Order(l) >= Order(min)
  }

  /** error is always logged; debug only when the minimum is debug; the threshold is monotone. */
  lemma ShouldLogThreshold(min: Level, a: Level, b: Level)
    ensures ShouldLog(min, Error)
    ensures ShouldLog(min, Debug) <==> min == Debug
    ensures ShouldLog(min, a) && Order(a) <= Order(b) ==> ShouldLog(min, b)
    ensures ShouldLog(min, min)
  {
  }

  /** The console stream logToConsole writes to. */
  datatype Stream = ConsoleLog | ConsoleWarn | ConsoleError

  function StreamFor(l: Level): Stream {
    match l
    case Debug => ConsoleLog
    case Info => ConsoleLog
    case Warn => ConsoleWarn
    case Error => ConsoleError
  }

  predicate HasTask(taskId: Option<string>) {
    taskId.Some? && taskId.value != ""
  }

  /** "[component]", followed by " [taskId]" for a non-empty taskId. */
  function Prefix(component: string, taskId: Option<string>): (r: string)
    ensures Text.StartsWith(r, "[" + component + "]")
    ensures HasTask(taskId) ==> r == "[" + component + "] [" + taskId.value + "]"
    ensures !HasTask(taskId) ==> r == "[" + component + "]"
  {
    "[" + component + "]" + (if HasTask(taskId) then " [" + taskId.value + "]" else "")
  }

  /** The files, relative to the log directory, that receive an entry's JSON line. */
  function Files(taskId: Option<string>): (r: seq<string>)
    ensures |r| >= 1 && r[0] == "orion.log"
    ensures |r| == 2 <==> HasTask(taskId)
    ensures HasTask(taskId) ==> r[1] == taskId.value + ".jsonl"
  {
    ["orion.log"] + (if HasTask(taskId) then [taskId.value + ".jsonl"] else [])
  }

  /** One log call's effect when it is not filtered out. */
  datatype Emission = Emission(stream: Stream, text: string, files: seq<string>)

  /** log(level, msg, ctx): nothing below the minimum level, otherwise the console line and the files. */
  function Emit(min: Level, component: string, l: Level, msg: string, taskId: Option<string>): (r: Option<Emission>)
    ensures r.Some? <==> ShouldLog(min, l)
    ensures r.Some? ==> r.value.stream == StreamFor(l) && r.value.files == Files(taskId)
    ensures r.Some? ==> r.value.text == Prefix(component, taskId) + " " + msg
  {
    if ShouldLog(min, l) then Some(Emission(StreamFor(l), Prefix(component, taskId) + " " + msg, Files(taskId)))
    else None
  }

  /** debug and info go to console.log, warn to console.warn, error to console.error. */
  lemma StreamsByLevel(l: Level)
    ensures StreamFor(l) == ConsoleLog <==> l == Debug || l == Info
    ensures StreamFor(l) == ConsoleWarn <==> l == Warn
    ensures StreamFor(l) == ConsoleError <==> l == Error
  {
  }

  /**
   * The err argument of error(): absent or falsy, an Error instance (its
   * message and stack), or another truthy value given by its String() text.
   */
  datatype ErrArg = NoErr | ErrorInstance(message: string, stack: Option<string>) | OtherErr(text: string)

  /** The error key the merge adds, if any. */
  function ErrValue(err: ErrArg): Option<Json> {
    match err
    case NoErr => None
    case ErrorInstance(message, stack) =>
      Some(JObj(map["message" := JStr(message)] + Entry("stack", StrOpt(stack))))
    case OtherErr(text) => Some(JStr(text))
  }

  /** The data error() logs: the caller's data, with error replaced as described by the argument. */
  function ErrorData(data: Option<map<string, Json>>, err: ErrArg): (r: map<string, Json>)
    ensures forall k | k in data.GetOr(map[]) && k != "error" :: k in r && r[k] == data.GetOr(map[])[k]
    ensures forall k | k in r && k != "error" :: k in data.GetOr(map[])
    ensures ErrValue(err).Some? ==> "error" in r && r["error"] == ErrValue(err).value
    ensures ErrValue(err).None? ==> r == data.GetOr(map[])
  {
    var base := data.GetOr(map[]);
    match ErrValue(err)
    case None => base
    case Some(v) => base["error" := v]
  }

  /** An Error instance is recorded as its message and stack, another value as its text. */
  lemma ErrorDataShapes(data: Option<map<string, Json>>, message: string, stack: string, text: string)
    ensures ErrorData(data, ErrorInstance(message, Some(stack)))["error"]
            == JObj(map["message" := JStr(message), "stack" := JStr(stack)])
    ensures ErrorData(data, OtherErr(text))["error"] == JStr(text)
  {
    assert map["message" := JStr(message)] + Entry("stack", Some(JStr(stack)))
           == map["message" := JStr(message), "stack" := JStr(stack)];
  }
}
