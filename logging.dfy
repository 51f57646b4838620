/** Log verbosity levels shared by every node kind. */
module Logging {

  datatype LogLevel = NoLogs | FatalLogs | ErrorLogs | WarnLogs | InfoLogs | DebugLogs | TraceLogs | AllLogs

  /** The level as it is written in a spec. */
  function LogLevelName(l: LogLevel): string {
    match l
    case NoLogs => "off"
    case FatalLogs => "fatal"
    case ErrorLogs => "error"
    case WarnLogs => "warn"
    case InfoLogs => "info"
    case DebugLogs => "debug"
    case TraceLogs => "trace"
    case AllLogs => "all"
  }

  /** The level a spec gets when it names none. */
  const DefaultLogging: LogLevel := InfoLogs

  /** Every level has its own name, so the reported value identifies the level. */
  lemma LogLevelNameInjective(a: LogLevel, b: LogLevel)
    ensures LogLevelName(a) == LogLevelName(b) ==> a == b
  {
  }
}
