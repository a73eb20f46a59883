/**
 Data model of the deployment dashboard: the application records that a
 batch run packages and uploads, and the entries of the log feed.
 */
module Types {

  /** Absence of a value, as returned by the searches of the dashboard. */
  datatype Option<+T> = None | Some(value: T)

  /** Lifecycle of one application within a batch run. */
  datatype AppStatus = IDLE | PACKAGING | UPLOADING | SUCCESS | ERROR

  /** One application package tracked by the registry. Only `status` and
      `progress` ever change; the other fields describe the package. */
  datatype IntuneApp = IntuneApp(
    id: string,
    name: string,
    version: string,
    status: AppStatus,
    progress: int,
    lastUpdated: string,
    size: string)

  /** Severity of a log entry. Shares two constructor names with
      `AppStatus`, so uses are always qualified. */
  datatype LogLevel = INFO | WARN | ERROR | SUCCESS

  /** An entry of the append-only log feed. `id` and `timestamp` come from
      the wall clock and are opaque here. */
  datatype LogEntry = LogEntry(id: string, timestamp: string, level: LogLevel, message: string)

  /** A reading of the wall clock: the id and the timestamp text given to
      the log entries created at that moment. */
  datatype Stamp = Stamp(id: string, time: string)

  /** The app is being worked on by the batch driver. */
  predicate InFlight(s: AppStatus) {
    s == PACKAGING || s == UPLOADING
  }

  /** The app finished its run, well or badly. */
  predicate Terminal(s: AppStatus) {
    s == AppStatus.SUCCESS || s == AppStatus.ERROR
  }

  /** Two records describe the same package: every field other than the
      run state (`status`, `progress`) agrees. */
  predicate SameIdentity(a: IntuneApp, b: IntuneApp) {
    a.id == b.id && a.name == b.name && a.version == b.version
    && a.lastUpdated == b.lastUpdated && a.size == b.size
  }

  /** Per-app well-formedness: progress is a percentage, and a deployed
      app is complete. */
  predicate AppOk(a: IntuneApp) {
    0 <= a.progress <= 100 && (a.status == AppStatus.SUCCESS ==> a.progress == 100)
  }

  predicate RegistryOk(apps: seq<IntuneApp>) {
    forall i :: 0 <= i < |apps| ==> AppOk(apps[i])
  }

  /** The statuses of a registry, in registry order. */
  function Statuses(apps: seq<IntuneApp>): (r: seq<AppStatus>)
    ensures |r| == |apps|
    ensures forall i :: 0 <= i < |apps| ==> r[i] == apps[i].status
  {
    seq(|apps|, i requires 0 <= i < |apps| => apps[i].status)
  }

  /** Entry `i` of the feed is an ERROR entry and no later entry is one:
      it is the most recent ERROR entry. */
  predicate IsLastError(logs: seq<LogEntry>, i: int) {
    0 <= i < |logs| && logs[i].level == LogLevel.ERROR
    && forall j :: i < j < |logs| ==> logs[j].level != LogLevel.ERROR
  }

  /** The log feed `after` was obtained from `before` by appending only. */
  predicate Extends(before: seq<LogEntry>, after: seq<LogEntry>) {
    |before| <= |after| && after[..|before|] == before
  }
}
