/**
 * The calendar-integration log: a newest-first list of at most 100 entries
 * and the diagnostic summary built from it. The time stamp and identifier
 * of a new entry are passed in; the console echo, the storage round trip
 * and the dispatch to the main queue are not modelled.
 */
module CalendarLogger {
  import opened Wrappers
  import opened DataModels
  import opened Seqs
  import Text

  const MaxLogs: nat := 100
  /** The diagnostic report lists at most this many errors. */
  const MaxReportedErrors: nat := 10

  datatype LogLevel = Info | Warning | Error | Success
  {
    /** The raw value stored in the encoded log. */
    function RawValue(): string
    {
      match this
      case Info => "INFO"
      case Warning => "WARNING"
      case Error => "ERROR"
      case Success => "SUCCESS"
    }

    /** `color`: the display color of the level, as `#RRGGBB`. */
    function Color(): (c: string)
      ensures |c| == 7 && c[0] == '#'
    {
      match this
      case Info => "#007AFF"
      case Warning => "#FF9500"
      case Error => "#FF3B30"
      case Success => "#34C759"
    }
  }

  /** Decoding a stored raw value; any other text is not a level. */
  function ParseLevel(raw: string): (r: Option<LogLevel>)
    ensures r.Some? ==> r.value.RawValue() == raw
  {
    if raw == "INFO" then Some(Info)
    else if raw == "WARNING" then Some(Warning)
    else if raw == "ERROR" then Some(Error)
    else if raw == "SUCCESS" then Some(Success)
    else None
  }

  /** Every level survives the encode/decode round trip of its raw value. */
  lemma ParseRawValue(l: LogLevel)
    ensures ParseLevel(l.RawValue()) == Some(l)
  {
  }

  /** Different levels are shown in different colors. */
  lemma ColorInjective(a: LogLevel, b: LogLevel)
    requires a.Color() == b.Color()
    ensures a == b
  {
  }

  datatype LogEntry = LogEntry(id: Uuid, timestamp: Date, level: LogLevel, message: string,
                               details: Option<string>, error: Option<string>)

  function LevelIs(l: LogLevel): LogEntry -> bool { (e: LogEntry) => e.level == l }

  /** `prefix(maxLogs)` once the list has grown past the cap: only the oldest entries go. */
  function Capped(s: seq<LogEntry>): (r: seq<LogEntry>)
    ensures |r| <= MaxLogs && |r| <= |s|
    ensures r == s[..|r|]
    ensures |s| <= MaxLogs ==> r == s
    ensures |s| > MaxLogs ==> |r| == MaxLogs
  {
    if |s| > MaxLogs then s[..MaxLogs] else s
  }

  /** The number of entries of one level. */
  function CountLevel(logs: seq<LogEntry>, l: LogLevel): nat
  {
    |Filter(logs, LevelIs(l))|
  }

  /** Every entry has exactly one level: the four counts add up to the length of the log. */
  lemma {:induction false} LevelCountsSum(logs: seq<LogEntry>)
    ensures CountLevel(logs, Info) + CountLevel(logs, Warning) + CountLevel(logs, Error)
            + CountLevel(logs, Success) == |logs|
  {
    if logs != [] {
      LevelCountsSum(logs[1..]);
      forall l | true
        ensures CountLevel(logs, l) == (if logs[0].level == l then 1 else 0) + CountLevel(logs[1..], l)
      {
        assert Filter(logs, LevelIs(l))
            == (if LevelIs(l)(logs[0]) then [logs[0]] else []) + Filter(logs[1..], LevelIs(l));
      }
    }
  }

  /** A logged operation: its message mentions creating or updating an event. */
  predicate IsOperation(e: LogEntry)
  {
    Text.Contains(e.message, "Creating event") || Text.Contains(e.message, "Updating event")
  }

  function IsOperationFn(): LogEntry -> bool { (e: LogEntry) => IsOperation(e) }

  /**
   * The figures of `generateDiagnosticReport`; `successRate` is a percentage
   * and present only when some operation was logged.
   */
  datatype Report = Report(recentErrors: seq<LogEntry>, totalOperations: nat,
                           successCount: nat, errorCount: nat, successRate: Option<real>)

  /** `Double(part) / Double(whole) * 100`, in exact arithmetic. */
  function Percent(part: nat, whole: nat): (r: real)
    requires whole > 0
    ensures r * (whole as real) == (part as real) * 100.0
  {
    var q := (part as real) / (whole as real);
    assert q * (whole as real) == part as real;
    q * 100.0
  }

  /** The first ten error entries of the log, in log order (`prefix(10)`). */
  function RecentErrors(logs: seq<LogEntry>): (r: seq<LogEntry>)
    ensures |r| <= MaxReportedErrors
    ensures forall e :: e in r ==> e in logs && e.level == Error
    ensures |r| == if CountLevel(logs, Error) < MaxReportedErrors then CountLevel(logs, Error) else MaxReportedErrors
    ensures r == Filter(logs, LevelIs(Error))[..|r|]
  {
    var errors := Filter(logs, LevelIs(Error));
    var recent := if |errors| > MaxReportedErrors then errors[..MaxReportedErrors] else errors;
    assert forall e :: e in recent ==> e in errors;
    recent
  }

  function DiagnosticReport(logs: seq<LogEntry>): (r: Report)
    ensures |r.recentErrors| <= MaxReportedErrors
    ensures forall e :: e in r.recentErrors ==> e in logs && e.level == Error
    ensures r.errorCount == CountLevel(logs, Error)
    ensures |r.recentErrors| == if r.errorCount < MaxReportedErrors then r.errorCount else MaxReportedErrors
    ensures r.recentErrors == Filter(logs, LevelIs(Error))[..|r.recentErrors|]
    ensures r.successCount == CountLevel(logs, Success)
    ensures r.successCount + r.errorCount <= |logs|
    ensures r.totalOperations == |Filter(logs, IsOperationFn())| <= |logs|
    ensures r.successRate.Some? <==> r.totalOperations > 0
    ensures r.successRate.Some? ==> r.successRate.value == Percent(r.successCount, r.totalOperations)
  {
    LevelCountsSum(logs);
    var successCount := CountLevel(logs, Success);
    var totalOperations := |Filter(logs, IsOperationFn())|;
    Report(RecentErrors(logs), totalOperations, successCount, CountLevel(logs, Error),
           if totalOperations > 0 then Some(Percent(successCount, totalOperations)) else None)
  }

  class CalendarLogger {
    var logs: seq<LogEntry>

    /** `init`: the stored log, or none when nothing could be decoded. */
    constructor (stored: Option<seq<LogEntry>>)
      ensures logs == stored.GetOr([])
    {
      logs := stored.GetOr([]);
    }

    /**
     * `log`: the new entry goes first; past the cap the oldest entries are
     * dropped and every other entry keeps its place after the new one.
     */
    method Log(id: Uuid, now: Date, level: LogLevel, message: string,
               details: Option<string>, error: Option<string>)
      modifies this
      ensures logs == Capped([LogEntry(id, now, level, message, details, error)] + old(logs))
      ensures logs != [] && logs[0] == LogEntry(id, now, level, message, details, error)
      ensures |logs| <= MaxLogs
      ensures logs[1..] == old(logs)[..|logs| - 1]
    {
      var entry := LogEntry(id, now, level, message, details, error);
      logs := [entry] + logs;
      if |logs| > MaxLogs {
        logs := logs[..MaxLogs];
      }
    }

    /** `clearLogs`. */
    method ClearLogs()
      modifies this
      ensures logs == []
    {
      logs := [];
    }
  }
}
