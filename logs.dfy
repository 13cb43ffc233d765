/** The logs feed (`useDatabaseLogs`): its payload and derived views. */
module LogsFeed {
  import opened Seqs

  const Fallback := "Failed to fetch database logs"

  /** A log entry; `logType` is the entry's `type` field. */
  datatype LogEntry = LogEntry(id: string, logType: string, message: string, timestamp: string)

  function TypeOf(entry: LogEntry): string
  {
    entry.logType
  }

  /** `log => log.type === type`. */
  function TypeIs(logType: string): LogEntry -> bool
  {
    (entry: LogEntry) => entry.logType == logType
  }

  /** `getLogsByType(type)`. */
  function LogsByType(logs: seq<LogEntry>, logType: string): seq<LogEntry>
  {
    Filter(logs, TypeIs(logType))
  }

  function ErrorLogs(logs: seq<LogEntry>): seq<LogEntry>
  {
    LogsByType(logs, "error")
  }

  function WarningLogs(logs: seq<LogEntry>): seq<LogEntry>
  {
    LogsByType(logs, "warning")
  }

  function InfoLogs(logs: seq<LogEntry>): seq<LogEntry>
  {
    LogsByType(logs, "info")
  }

  /** `totalLogs`. */
  function TotalLogs(logs: seq<LogEntry>): nat
  {
    |logs|
  }

  /** The logs of a type form an order-preserving subsequence of the logs that
      holds each entry of exactly that type as often as it occurs, and no
      other entry. */
  lemma LogsByTypeSpec(logs: seq<LogEntry>, logType: string)
    ensures IsSubsequence(LogsByType(logs, logType), logs)
    ensures forall e :: e in LogsByType(logs, logType) <==> e in logs && e.logType == logType
    ensures forall e ::
      multiset(LogsByType(logs, logType))[e] == (if e.logType == logType then multiset(logs)[e] else 0)
  {
    FilterIsSubsequence(logs, TypeIs(logType));
    FilterMembers(logs, TypeIs(logType));
    FilterMultiset(logs, TypeIs(logType));
  }

  /** The error, warning and info lists together hold at most all entries. */
  lemma TypeListsBound(logs: seq<LogEntry>)
    ensures |ErrorLogs(logs)| + |WarningLogs(logs)| + |InfoLogs(logs)| <= TotalLogs(logs)
  {
    DisjointFiltersLength(logs, TypeIs("error"), TypeIs("warning"), TypeIs("info"));
  }
}
