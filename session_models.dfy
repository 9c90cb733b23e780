/** The usage-session data model: sessions, per-app summaries, day timelines,
    raw usage events and session statistics. Timestamps and durations are
    milliseconds since the epoch. */
module SessionModels {
  import opened Text
  import opened Sorting

  datatype Option<T> = None | Some(value: T)

  /** Android's `UsageEvents.Event.ACTIVITY_RESUMED` (also `MOVE_TO_FOREGROUND`). */
  const ACTIVITY_RESUMED: int := 1
  /** Android's `UsageEvents.Event.ACTIVITY_PAUSED` (also `MOVE_TO_BACKGROUND`). */
  const ACTIVITY_PAUSED: int := 2

  /** One foreground interval of one app. `durationMs` is a constructor
      parameter: NewSession supplies the default, callers may pass another value. */
  datatype AppSession = AppSession(
    packageName: string,
    appName: string,
    className: string,
    startTime: int,
    endTime: int,
    durationMs: int)

  /** The constructor call that leaves `durationMs` at its default. */
  function NewSession(packageName: string, appName: string, className: string, startTime: int, endTime: int): (s: AppSession)
    ensures s.packageName == packageName && s.appName == appName && s.className == className
    ensures s.startTime == startTime && s.endTime == endTime
    ensures s.startTime + s.durationMs == s.endTime
  {
    AppSession(packageName, appName, className, startTime, endTime, endTime - startTime)
  }

  /** The JSON object attached to a stored session event, as a key/value map. */
  function ToEventData(s: AppSession): (data: map<string, string>)
    ensures "app" in data && data["app"] == s.appName
    ensures "package" in data && data["package"] == s.packageName
    ensures "classname" in data <==> s.className != ""
    ensures "classname" in data ==> data["classname"] == s.className
    ensures data.Keys <= {"app", "package", "classname"}
  {
    var data := map["app" := s.appName, "package" := s.packageName];
    if s.className != "" then data["classname" := s.className] else data
  }

  function Duration(s: AppSession): int { s.durationMs }

  function StartTime(s: AppSession): int { s.startTime }

  datatype AppUsageSummary = AppUsageSummary(
    packageName: string,
    appName: string,
    totalTimeMs: int,
    sessionCount: int,
    sessions: seq<AppSession>)

  /** Kotlin `totalTimeMs / sessionCount` on `Long`/`Int`: truncates toward zero; 0 without sessions. */
  function AverageSessionMs(summary: AppUsageSummary): (avg: int)
    ensures summary.sessionCount <= 0 ==> avg == 0
    ensures summary.sessionCount > 0 ==>
      avg * summary.sessionCount + JavaRem(summary.totalTimeMs, summary.sessionCount) == summary.totalTimeMs
  {
    if summary.sessionCount > 0 then JavaDiv(summary.totalTimeMs, summary.sessionCount) else 0
  }

  function TotalTimeOf(summary: AppUsageSummary): int { summary.totalTimeMs }

  function SessionCountOf(summary: AppUsageSummary): int { summary.sessionCount }

  /** `date` is the instant at which the day starts. */
  datatype DayTimeline = DayTimeline(
    date: int,
    sessions: seq<AppSession>,
    appSummaries: seq<AppUsageSummary>,
    totalScreenTimeMs: int)

  function UniqueAppsCount(timeline: DayTimeline): nat
  {
    |timeline.appSummaries|
  }

  /** A usage event kept by extraction; `packageName` and `className` are never null here. */
  datatype UsageEvent = UsageEvent(
    eventType: int,
    timeStamp: int,
    packageName: string,
    className: string)

  datatype SessionStats = SessionStats(
    totalSessions: int,
    averageSessionDuration: int,
    longestSession: Option<AppSession>,
    shortestSession: Option<AppSession>,
    mostUsedApp: Option<AppUsageSummary>)
}
