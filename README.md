# ActivityWatch for Android: session reconstruction, watchers and widget, in Dafny

This project models the logic at the centre of the ActivityWatch Android client:

- **Session reconstruction** (`SessionParser`). The OS usage events of a time window
  are filtered to ACTIVITY_RESUMED/ACTIVITY_PAUSED transitions and stably sorted by
  time. Each RESUME is then paired with the next event of the same package, when that
  event is a PAUSE, and the pair becomes an `AppSession` only when its length lies
  strictly between 1 second and 4 hours. From those sessions it builds per-app
  summaries, the day timeline with its totals, and statistics.
- **The session data model** (`SessionModels`): `AppSession` with its default
  duration, the event data sent to the store, and the integer average of a summary.
- **Helpers** (`SessionUtils`): duration formatting, the plausibility checks, the gap
  between sessions, same-app equality, and the fallback app label.
- **`SessionEventWatcher`**, as a class:
  - its field `lastUpdated`, plus the part of the local store it changes (the
    buckets and the events inserted into the session bucket);
  - the incremental send task, which resumes from the timestamp of the last stored
    event, inserts every session once, in order, and reports progress every tenth
    session;
  - the per-day, per-period and last-N-days resend operations.
- **`WebWatcher`**, as a class: the accessibility service's state machine
  (`lastUrl`, `lastBrowser`, `lastWindowTitle`, `lastUrlTimestamp`, `lastWindowId`).
  It emits a heartbeat for the previous page whenever the (URL, browser) pair
  changes. The model also covers the per-browser URL extractors and the depth-first
  search for a titled WebView.
- **`CategoryTimeWidgetWorker`**: the widget refresh. It writes the total as hours
  and minutes, the three category rows and the stacked bar, whose segments are the
  top three categories plus an "others" segment. The rows are filled by a loop into a
  `RemoteViews` object.

Two small modules support the rest:

- `Text` renders integers the way Kotlin string templates do and defines the JVM's
  truncating division and remainder, plus 32-bit wrap-around.
- `Sorting` defines Kotlin's stable `sortedBy`, `sumOf` and `maxByOrNull`/`minByOrNull`.

The OS and the native store are inputs to the model:

- `query(begin, end)` is the event list the OS reports for a window;
- `labels` is the package manager's label table;
- `now` and `today` are clock readings;
- `startOfDayDaysAgo` is the calendar;
- `parse` is the ISO timestamp parser;
- `fetched` is what the store returns for "the last event".

Three behaviours of the code worth stating:

- **Cursor.** The incremental cursor is the *start* time of the last stored event,
  not its end time. The last session sent is therefore inside the next window and is
  sent again (`SessionEventWatcher.CursorRevisitsLastSession`).
- **Interleaved apps.** With interleaved apps A and B, the sessions come out in the
  order of their RESUME events: A's session first, then B's
  (`SessionParser.InterleavedAppsScenario`).
- **Failed inserts.** The store's insert result is never consulted, so there is no
  failure path.

## Model

| member | source | states |
|---|---|---|
| Text.IntToString | mobile/src/main/java/net/activitywatch/android/utils/SessionUtils.kt:45-47 | a rendered Long is non-empty decimal digits, with a leading '-' exactly for negatives |
| Text.NatToStringRoundTrip | mobile/src/main/java/net/activitywatch/android/utils/SessionUtils.kt:45-47 | parsing the digits of a rendered natural number gives the number back |
| Text.IntToStringRoundTrip | mobile/src/main/java/net/activitywatch/android/utils/SessionUtils.kt:45-47 | parsing a rendered integer gives it back, so rendering loses nothing |
| Text.IntToStringInjective | mobile/src/main/java/net/activitywatch/android/utils/SessionUtils.kt:45-47 | two integers that render to the same text are equal |
| Text.JavaRem | mobile/src/main/java/net/activitywatch/android/data/SessionModels.kt:46 | JVM remainder: quotient times divisor plus remainder is the dividend, and the remainder takes the dividend's sign, strictly smaller than the divisor in magnitude |
| Text.Int32Wrap | mobile/src/main/java/net/activitywatch/android/parser/SessionParser.kt:221 | a 32-bit Int result is in [-2^31, 2^31), congruent to the exact value mod 2^32, and equal to it when it fits |
| Sorting.SortBy | mobile/src/main/java/net/activitywatch/android/parser/SessionParser.kt:121 | `sortedBy` returns a permutation of its input (same length, same multiset) in non-decreasing key order |
| Sorting.SortByStable | mobile/src/main/java/net/activitywatch/android/parser/SessionParser.kt:121 | elements sharing a key keep their relative input order |
| Sorting.SortBySorted | mobile/src/main/java/net/activitywatch/android/parser/SessionParser.kt:72 | sorting a list already in key order returns it unchanged |
| Sorting.SumOfSortBy | mobile/src/main/java/net/activitywatch/android/parser/SessionParser.kt:68-74 | reordering by `sortedBy` keeps every `sumOf` total |
| Sorting.FirstMaxIndex | mobile/src/main/java/net/activitywatch/android/parser/SessionParser.kt:244 | `maxByOrNull` on a non-empty list picks an element of greatest key, the first one among equals |
| Sorting.FirstMinIndex | mobile/src/main/java/net/activitywatch/android/parser/SessionParser.kt:245 | `minByOrNull` on a non-empty list picks an element of least key, the first one among equals |
| SessionModels.NewSession | mobile/src/main/java/net/activitywatch/android/data/SessionModels.kt:8-15 | a session built without an explicit duration keeps its fields and has startTime + durationMs = endTime |
| SessionModels.ToEventData | mobile/src/main/java/net/activitywatch/android/data/SessionModels.kt:23-31 | "app" and "package" are always present with appName and packageName; "classname" is present iff className is non-empty, and no other key exists |
| SessionModels.AverageSessionMs | mobile/src/main/java/net/activitywatch/android/data/SessionModels.kt:46 | 0 when sessionCount <= 0, otherwise the truncated quotient totalTimeMs / sessionCount |
| SessionUtils.DurationParts | mobile/src/main/java/net/activitywatch/android/utils/SessionUtils.kt:40-42 | for a non-negative duration: hours >= 0 and minutes and seconds in 0..59 |
| SessionUtils.PartsRecompose | mobile/src/main/java/net/activitywatch/android/utils/SessionUtils.kt:40-42 | hours, minutes and seconds recompose the duration's whole seconds |
| SessionUtils.DurationPartsForm | mobile/src/main/java/net/activitywatch/android/utils/SessionUtils.kt:44-47 | hours > 0 iff the duration is at least one hour; otherwise minutes > 0 iff it is at least one minute |
| SessionUtils.FormatDuration | mobile/src/main/java/net/activitywatch/android/utils/SessionUtils.kt:39-49 | one of "{h}h {m}m" (hours > 0), "{m}m {s}s" (minutes > 0) or "{s}s" |
| SessionUtils.ReasonableTimestampBoundary | mobile/src/main/java/net/activitywatch/android/utils/SessionUtils.kt:162-166 | the bound is inclusive: exactly one minute after now is accepted, one millisecond more is rejected, and nothing up to now is rejected |
| SessionUtils.CalculateSessionGap | mobile/src/main/java/net/activitywatch/android/utils/SessionUtils.kt:171-173 | the gap is never negative, is 0 iff the sessions touch or overlap, and otherwise bridges the first end to the second start |
| SessionUtils.IsSameAppIsEquivalence | mobile/src/main/java/net/activitywatch/android/utils/SessionUtils.kt:178-180 | same-app is reflexive, symmetric and transitive |
| SessionUtils.AppNameFallback | mobile/src/main/java/net/activitywatch/android/utils/SessionUtils.kt:144-147 | the fallback label is the dot-free suffix after the last '.' of the package name |
| SessionUtils.AppNameFallbackWithoutDot | mobile/src/main/java/net/activitywatch/android/utils/SessionUtils.kt:146 | a package name without a dot is its own fallback label |
| SessionUtils.GetAppName | mobile/src/main/java/net/activitywatch/android/utils/SessionUtils.kt:139-147 | an unknown package gets the fallback label |
| SessionParser.RelevantEventsSpec | mobile/src/main/java/net/activitywatch/android/parser/SessionParser.kt:104-133 | every kept event is a RESUMED/PAUSED transition converted from a relevant raw event, and every relevant raw event is kept, with null names as "" |
| SessionParser.ExtractRawEvents | mobile/src/main/java/net/activitywatch/android/parser/SessionParser.kt:101-125 | the loop's result is the relevant events, in ascending time order, a permutation of them, with equal timestamps kept in stream order |
| SessionParser.NextSameApp | mobile/src/main/java/net/activitywatch/android/parser/SessionParser.kt:155-185 | the forward scan stops at the first later RESUMED/PAUSED event of the same package, skipping all others |
| SessionParser.PairedPauseSpec | mobile/src/main/java/net/activitywatch/android/parser/SessionParser.kt:152-182 | a RESUME is paired with index k iff k is the first same-package transition after it, k is a PAUSE, and the gap is strictly between 1000 and 14,400,000 ms |
| SessionParser.PairedPauseInjective | mobile/src/main/java/net/activitywatch/android/parser/SessionParser.kt:158-182 | two different RESUMEs never pair with the same PAUSE |
| SessionParser.PairsBefore | mobile/src/main/java/net/activitywatch/android/parser/SessionParser.kt:148-188 | the pairs found by the outer loop before index m, in increasing RESUME order, each a genuine pairing |
| SessionParser.SessionsOf | mobile/src/main/java/net/activitywatch/android/parser/SessionParser.kt:166-174 | one session per pair, built from the RESUME's package, class and time and the PAUSE's time |
| SessionParser.ParseEventsIntoSessions | mobile/src/main/java/net/activitywatch/android/parser/SessionParser.kt:139-193 | the nested loops return exactly the sessions of the specification of pairing, in order |
| SessionParser.ParsedSessionsBounded | mobile/src/main/java/net/activitywatch/android/parser/SessionParser.kt:164-174 | every session ends after it starts, its duration is end - start, and 1000 < duration < 14,400,000 |
| SessionParser.ParsedSessionsFromCleanPairs | mobile/src/main/java/net/activitywatch/android/parser/SessionParser.kt:152-177 | every session comes from a clean RESUME/PAUSE pair and carries the RESUME's package, class and time and the PAUSE's time |
| SessionParser.CleanPairYieldsSession | mobile/src/main/java/net/activitywatch/android/parser/SessionParser.kt:152-177 | conversely, every clean pair of accepted length is found by the outer loop |
| SessionParser.PausesUsedOnce | mobile/src/main/java/net/activitywatch/android/parser/SessionParser.kt:139-193 | no PAUSE ends two sessions |
| SessionParser.ParsedSessionsSorted | mobile/src/main/java/net/activitywatch/android/parser/SessionParser.kt:148-188 | for time-sorted input, sessions come out in non-decreasing start order |
| SessionParser.StrictFilterVersusReasonable | mobile/src/main/java/net/activitywatch/android/parser/SessionParser.kt:165 | the parser's strict bounds imply `isReasonableDuration`, and the two differ exactly at 1000 and 14,400,000 ms |
| SessionParser.UnmatchedResumeYieldsNothing | mobile/src/main/java/net/activitywatch/android/parser/SessionParser.kt:158-185 | a RESUME with no later PAUSE of its package is paired with nothing |
| SessionParser.TrailingResumeAddsNothing | mobile/src/main/java/net/activitywatch/android/parser/SessionParser.kt:149-188 | appending a RESUME to the events leaves the sessions unchanged |
| SessionParser.CleanPairScenario | mobile/src/main/java/net/activitywatch/android/parser/SessionParser.kt:161-177 | RESUME(A,t0), PAUSE(A,t1) of accepted length gives exactly one session [t0,t1) with the RESUME's class |
| SessionParser.RejectedPairScenario | mobile/src/main/java/net/activitywatch/android/parser/SessionParser.kt:164-177 | the same pair outside the strict bounds gives no session |
| SessionParser.RejectedPauseStillEndsScan | mobile/src/main/java/net/activitywatch/android/parser/SessionParser.kt:164-177 | a rejected PAUSE still ends the scan: a later PAUSE is not paired instead |
| SessionParser.OrphanResumeScenario | mobile/src/main/java/net/activitywatch/android/parser/SessionParser.kt:178-187 | RESUME(A,t0), RESUME(A,t1), PAUSE(A,t2) gives only [t1,t2) |
| SessionParser.InterleavedAppsScenario | mobile/src/main/java/net/activitywatch/android/parser/SessionParser.kt:158-185 | RESUME A, RESUME B, PAUSE B, PAUSE A gives both sessions, A's first |
| SessionParser.DistinctPackages | mobile/src/main/java/net/activitywatch/android/parser/SessionParser.kt:201 | the group keys: distinct, covering every session's package, each the package of some session |
| SessionParser.DistinctPackagesPrefix | mobile/src/main/java/net/activitywatch/android/parser/SessionParser.kt:201 | groups appear in first-occurrence order: a prefix of the sessions yields a prefix of the keys |
| SessionParser.SessionsOfApp | mobile/src/main/java/net/activitywatch/android/parser/SessionParser.kt:201 | a group holds exactly the sessions of its package |
| SessionParser.SessionsOfAppHead | mobile/src/main/java/net/activitywatch/android/parser/SessionParser.kt:201 | a group starts with the first session of its package |
| SessionParser.SummaryOf | mobile/src/main/java/net/activitywatch/android/parser/SessionParser.kt:203-211 | a summary's count is its group's size and its total is the sum of the group's durations |
| SessionParser.SummaryOfSpec | mobile/src/main/java/net/activitywatch/android/parser/SessionParser.kt:203-211 | a summary's sessions are its group sorted by start (a permutation) and its total is their duration sum |
| SessionParser.SummaryAppName | mobile/src/main/java/net/activitywatch/android/parser/SessionParser.kt:206 | the summary's appName is that of the first session of the package |
| SessionParser.SummarySessionsStable | mobile/src/main/java/net/activitywatch/android/parser/SessionParser.kt:209 | sessions with the same start keep their group order |
| SessionParser.SummariesFor | mobile/src/main/java/net/activitywatch/android/parser/SessionParser.kt:203-211 | one summary per key, in key order |
| SessionParser.CreateAppSummaries | mobile/src/main/java/net/activitywatch/android/parser/SessionParser.kt:200-212 | one summary per distinct package; non-empty for non-empty input |
| SessionParser.CreateAppSummariesSpec | mobile/src/main/java/net/activitywatch/android/parser/SessionParser.kt:200-212 | summary packages are distinct, every session's package has a summary, and each summary is that package's summary with a positive count |
| SessionParser.SummaryOfAppend | mobile/src/main/java/net/activitywatch/android/parser/SessionParser.kt:207-208 | one more session raises its own package's total and count and no other |
| SessionParser.SummariesForAppend | mobile/src/main/java/net/activitywatch/android/parser/SessionParser.kt:200-212 | one more session raises the summed totals by its duration and the summed counts by one, when its package is a key |
| SessionParser.SummariesForTotals | mobile/src/main/java/net/activitywatch/android/parser/SessionParser.kt:200-212 | over keys covering all packages, summary totals add up to the session total and counts to the session count |
| SessionParser.SummaryTotals | mobile/src/main/java/net/activitywatch/android/parser/SessionParser.kt:200-212 | summed totals of all summaries equal the summed durations; summed counts equal the number of sessions |
| SessionParser.DayTimelineSessions | mobile/src/main/java/net/activitywatch/android/parser/SessionParser.kt:52-76 | the timeline's date is the day start and its sessions are the parsed ones, sorted by start |
| SessionParser.DayTimelineSummaries | mobile/src/main/java/net/activitywatch/android/parser/SessionParser.kt:65-73 | the timeline's summaries are a permutation of the app summaries in non-increasing total order; uniqueAppsCount is the number of distinct packages |
| SessionParser.DayTimelineTotals | mobile/src/main/java/net/activitywatch/android/parser/SessionParser.kt:68-74 | totalScreenTimeMs is the sum of session durations and of summary totals; summary counts add up to the session count |
| SessionParser.ParseUsageEventsForDay | mobile/src/main/java/net/activitywatch/android/parser/SessionParser.kt:52-76 | queries the 24-hour window from the day start and returns that day's timeline |
| SessionParser.ParseUsageEventsForPeriod | mobile/src/main/java/net/activitywatch/android/parser/SessionParser.kt:81-88 | the parsed sessions of the window's events; periodEnd plays no part |
| SessionParser.ParseUsageEventsSince | mobile/src/main/java/net/activitywatch/android/parser/SessionParser.kt:93-96 | the sessions of the window from the given timestamp to now |
| SessionParser.DayStartAsWrittenExactUpTo24 | mobile/src/main/java/net/activitywatch/android/parser/SessionParser.kt:221 | the Int product i * 86,400,000 is exact for days 0..24 |
| SessionParser.DayStartAsWrittenWrapsAt25 | mobile/src/main/java/net/activitywatch/android/parser/SessionParser.kt:221 | at day 25 the Int product wraps: that day starts 2,134,967,296 ms before the first day |
| SessionParser.DayStart | mobile/src/main/java/net/activitywatch/android/parser/SessionParser.kt:221 | the intended day start is never before the first day for i >= 0 |
| SessionParser.ParseUsageEventsForDays | mobile/src/main/java/net/activitywatch/android/parser/SessionParser.kt:217-227 | one timeline per day, in order, timeline d dated startDay + d days; none for numberOfDays <= 0 |
| SessionParser.GetSessionStats | mobile/src/main/java/net/activitywatch/android/parser/SessionParser.kt:232-258 | empty input gives 0, 0 and three nulls; otherwise the count, the mean truncated toward zero, and all three picks present |
| SessionParser.LongestSessionIsFirstMax | mobile/src/main/java/net/activitywatch/android/parser/SessionParser.kt:244 | the longest session is the first one of greatest duration |
| SessionParser.ShortestSessionIsFirstMin | mobile/src/main/java/net/activitywatch/android/parser/SessionParser.kt:245 | the shortest session is the first one of least duration |
| SessionParser.MostUsedAppIsFirstMax | mobile/src/main/java/net/activitywatch/android/parser/SessionParser.kt:248-249 | the most used app is the first summary of greatest total |
| SessionParser.FirstMaxUnique | mobile/src/main/java/net/activitywatch/android/parser/SessionParser.kt:244-249 | "first of greatest key" determines a single position |
| SessionEventWatcher.RecordOf | mobile/src/main/java/net/activitywatch/android/watcher/SessionEventWatcher.kt:101-108 | the stored event starts at the session's start, lasts durationMs / 1000 seconds and carries its event data |
| SessionEventWatcher.Records | mobile/src/main/java/net/activitywatch/android/watcher/SessionEventWatcher.kt:73-81 | one stored event per session, in session order |
| SessionEventWatcher.GetLastEventTime | mobile/src/main/java/net/activitywatch/android/watcher/SessionEventWatcher.kt:39-55 | a time is returned iff the store returned exactly one event and its timestamp parses, and it is the parsed timestamp |
| SessionEventWatcher.WindowStart | mobile/src/main/java/net/activitywatch/android/watcher/SessionEventWatcher.kt:68 | the window starts at the cursor, or at 0 without one |
| SessionEventWatcher.LastProgress | mobile/src/main/java/net/activitywatch/android/watcher/SessionEventWatcher.kt:77-79 | after a non-empty send, lastUpdated is the end time of the last session at an index divisible by 10; otherwise it is unchanged |
| SessionEventWatcher.LastProgressStep | mobile/src/main/java/net/activitywatch/android/watcher/SessionEventWatcher.kt:77-79 | session k publishes progress exactly when k is a multiple of 10 |
| SessionEventWatcher.CursorRevisitsLastSession | mobile/src/main/java/net/activitywatch/android/watcher/SessionEventWatcher.kt:65-69 | when the last stored event is a parsed session's record, the next window starts at that session's start, before its end |
| SessionEventWatcher.WithBucket | mobile/src/main/java/net/activitywatch/android/watcher/SessionEventWatcher.kt:62 | creating a bucket adds its id and leaves existing buckets as they are |
| SessionEventWatcher.WithBucketIdempotent | mobile/src/main/java/net/activitywatch/android/watcher/SessionEventWatcher.kt:62 | creating the same bucket twice is the same as once |
| SessionEventWatcher.SessionEventWatcher.CreateBucketHelper | mobile/src/main/java/net/activitywatch/android/watcher/SessionEventWatcher.kt:62-63 | the store gains the bucket; nothing else changes |
| SessionEventWatcher.SessionEventWatcher.InsertSessionAsEvent | mobile/src/main/java/net/activitywatch/android/watcher/SessionEventWatcher.kt:101-111 | appends exactly one insert request, the session's record, for the session bucket |
| SessionEventWatcher.SessionEventWatcher.OnProgressUpdate | mobile/src/main/java/net/activitywatch/android/watcher/SessionEventWatcher.kt:86-90 | lastUpdated becomes the session's end time; the store is unchanged |
| SessionEventWatcher.SessionEventWatcher.SendSessionEventTask | mobile/src/main/java/net/activitywatch/android/watcher/SessionEventWatcher.kt:58-84 | creates both buckets, then appends the records of the window from the cursor to now; returns their count and sets lastUpdated to the last published progress |
| SessionEventWatcher.SessionEventWatcher.SendWithProgress | mobile/src/main/java/net/activitywatch/android/watcher/SessionEventWatcher.kt:71-83 | every session inserted once, in order; the count returned equals the number of sessions |
| SessionEventWatcher.SessionEventWatcher.InsertSessions | mobile/src/main/java/net/activitywatch/android/watcher/SessionEventWatcher.kt:123-127 | the records of all sessions appended in order, their number returned |
| SessionEventWatcher.SessionEventWatcher.SendSessionEventsForDay | mobile/src/main/java/net/activitywatch/android/watcher/SessionEventWatcher.kt:116-130 | the session bucket exists and the day timeline's sessions are appended in start order |
| SessionEventWatcher.SessionEventWatcher.SendSessionEventsForPeriod | mobile/src/main/java/net/activitywatch/android/watcher/SessionEventWatcher.kt:135-149 | the session bucket exists and the window's sessions are appended in order |
| SessionEventWatcher.SessionEventWatcher.InsertSessionsAsEvents | mobile/src/main/java/net/activitywatch/android/watcher/SessionEventWatcher.kt:154-166 | the session bucket exists and the given sessions are appended in order |
| SessionEventWatcher.SessionEventWatcher.SendSessionEventsForLastDays | mobile/src/main/java/net/activitywatch/android/watcher/SessionEventWatcher.kt:192-212 | days 0..n-1 in order, each day's sessions in start order; the total is the number of sessions appended |
| SessionEventWatcher.SessionsOfLastDaysStep | mobile/src/main/java/net/activitywatch/android/watcher/SessionEventWatcher.kt:199-209 | one more day appends exactly that day's timeline sessions |
| SessionEventWatcher.SessionEventWatcher.GetSessionsSinceLastUpdate | mobile/src/main/java/net/activitywatch/android/watcher/SessionEventWatcher.kt:176-179 | the sessions from lastUpdated (or from 0 when unset) to now |
| SessionEventWatcher.SessionEventWatcher.InsertSessionEvent | mobile/src/main/java/net/activitywatch/android/watcher/SessionEventWatcher.kt:217-236 | exactly one record is appended: that of the session [startTime, startTime + durationMs) |
| SessionEventWatcher.InsertedSessionEventShape | mobile/src/main/java/net/activitywatch/android/watcher/SessionEventWatcher.kt:217-236 | that record starts at startTime, lasts durationMs / 1000 s and names the package and app |
| SessionEventWatcher.SessionEventWatcher.ForceRefreshToday | mobile/src/main/java/net/activitywatch/android/watcher/SessionEventWatcher.kt:184-187 | resends all of today's sessions regardless of lastUpdated, which stays unchanged |
| WebWatcher.RemovePrefix | mobile/src/main/java/net/activitywatch/android/watcher/WebWatcher.kt:27 | a leading prefix is removed once; without it the string is unchanged |
| WebWatcher.StripProtocolSpec | mobile/src/main/java/net/activitywatch/android/watcher/WebWatcher.kt:26-28 | one "http://" and then one "https://" are removed; other strings are unchanged; the result is a suffix |
| WebWatcher.FirstTitled | mobile/src/main/java/net/activitywatch/android/watcher/WebWatcher.kt:112-116 | the first titled WebView of a node list, or none iff there is none |
| WebWatcher.FindWebView | mobile/src/main/java/net/activitywatch/android/watcher/WebWatcher.kt:109-117 | what is found is a WebView with a title |
| WebWatcher.FindWebViewIsFirstInPreorder | mobile/src/main/java/net/activitywatch/android/watcher/WebWatcher.kt:109-117 | the search returns the first titled WebView in depth-first pre-order |
| WebWatcher.FindInChildrenIsFirst | mobile/src/main/java/net/activitywatch/android/watcher/WebWatcher.kt:112-116 | searching children from i returns the first titled WebView of their subtrees in order |
| WebWatcher.ExtractTextByViewId | mobile/src/main/java/net/activitywatch/android/watcher/WebWatcher.kt:15-22 | a text is found iff the event has a source and the view id is present |
| WebWatcher.ExtractUrlSpec | mobile/src/main/java/net/activitywatch/android/watcher/WebWatcher.kt:41-61 | no URL without a source; Firefox prefers its title bar and falls back; Samsung's fallback strips the protocol |
| WebWatcher.WholeSecondsBetween | mobile/src/main/java/net/activitywatch/android/watcher/WebWatcher.kt:150 | the whole seconds elapsed, rounded down |
| WebWatcher.BrowserHeartbeat | mobile/src/main/java/net/activitywatch/android/watcher/WebWatcher.kt:147-161 | a heartbeat to the web bucket at the visit's start, lasting the whole seconds until now, pulsetime 1.0, with url, browser, title and two false flags |
| WebWatcher.HandleUrlSpec | mobile/src/main/java/net/activitywatch/android/watcher/WebWatcher.kt:119-138 | an unchanged pair changes and emits nothing; a changed pair stores the new pair, clears the title and restarts the clock; it emits the previous visit, with title or "", iff URL and browser were both set |
| WebWatcher.HandleUrlIdempotent | mobile/src/main/java/net/activitywatch/android/watcher/WebWatcher.kt:119-120 | repeating the same URL and browser changes and emits nothing |
| WebWatcher.HandleWindowTitleSpec | mobile/src/main/java/net/activitywatch/android/watcher/WebWatcher.kt:140-145 | afterwards the title is the new one; applying it again changes nothing |
| WebWatcher.IgnoredEventChangesNothing | mobile/src/main/java/net/activitywatch/android/watcher/WebWatcher.kt:70-72 | a system UI event changes no state and emits nothing |
| WebWatcher.NonBrowserEventSpec | mobile/src/main/java/net/activitywatch/android/watcher/WebWatcher.kt:74-88 | without an extractor only the window id is recorded, unless the window changed, which closes the current visit |
| WebWatcher.BrowserEventSpec | mobile/src/main/java/net/activitywatch/android/watcher/WebWatcher.kt:90-98 | a browser event with a URL makes it the current visit and takes the WebView's title when there is one |
| WebWatcher.AfterEventValid | mobile/src/main/java/net/activitywatch/android/watcher/WebWatcher.kt:69-102 | an event keeps the watcher's invariant: a current URL or browser always has a start time, so `lastUrlTimestamp!!` cannot fail |
| WebWatcher.WebWatcher.constructor | mobile/src/main/java/net/activitywatch/android/watcher/WebWatcher.kt:33-39 | all last* fields start null and nothing has been emitted |
| WebWatcher.WebWatcher.OnCreate | mobile/src/main/java/net/activitywatch/android/watcher/WebWatcher.kt:63-66 | the web bucket exists afterwards; the watcher state is unchanged |
| WebWatcher.WebWatcher.LogBrowserEvent | mobile/src/main/java/net/activitywatch/android/watcher/WebWatcher.kt:147-161 | appends exactly the visit's heartbeat |
| WebWatcher.WebWatcher.HandleUrl | mobile/src/main/java/net/activitywatch/android/watcher/WebWatcher.kt:119-138 | the fields move as the URL transition says and its heartbeats are appended |
| WebWatcher.WebWatcher.HandleWindowTitle | mobile/src/main/java/net/activitywatch/android/watcher/WebWatcher.kt:140-145 | only the title field changes |
| WebWatcher.WebWatcher.OnAccessibilityEvent | mobile/src/main/java/net/activitywatch/android/watcher/WebWatcher.kt:69-102 | the fields move as the event transition says, keeping the invariant, and its heartbeats are appended |
| CategoryTimeWidgetWorker.HoursAndMinutesSpec | mobile/src/main/java/net/activitywatch/android/widget/CategoryTimeWidgetWorker.kt:145-147 | for a non-negative total: minutes in 0..59 and hours:minutes is the total rounded down to the minute |
| CategoryTimeWidgetWorker.FormatDurationShortSpec | mobile/src/main/java/net/activitywatch/android/widget/CategoryTimeWidgetWorker.kt:373-383 | "<1 m" iff under a minute; "{h} h {m} m" from one hour; "{m} m" in between |
| CategoryTimeWidgetWorker.TopSegmentsSum | mobile/src/main/java/net/activitywatch/android/widget/CategoryTimeWidgetWorker.kt:211-212 | the top segments stand for exactly the top entries' time |
| CategoryTimeWidgetWorker.CreateBarChartBitmap | mobile/src/main/java/net/activitywatch/android/widget/CategoryTimeWidgetWorker.kt:187-309 | the drawing loop produces the chart that the segment rules define |
| CategoryTimeWidgetWorker.BarChartSegmentsSpec | mobile/src/main/java/net/activitywatch/android/widget/CategoryTimeWidgetWorker.kt:198-213 | a grey bar iff the total is 0 or there is no data; otherwise the top three entries in colour order, plus a grey "others" segment iff othersTotal > 0 |
| CategoryTimeWidgetWorker.BarChartRoundedEnds | mobile/src/main/java/net/activitywatch/android/widget/CategoryTimeWidgetWorker.kt:224-299 | only the first segment is rounded on the left and only the last on the right |
| CategoryTimeWidgetWorker.BarChartCoversTotal | mobile/src/main/java/net/activitywatch/android/widget/CategoryTimeWidgetWorker.kt:142 | when the total is the sum of the entries, the segments add up to the total |
| CategoryTimeWidgetWorker.RemoteViews.SetTextViewText | mobile/src/main/java/net/activitywatch/android/widget/CategoryTimeWidgetWorker.kt:148 | sets one text view's text, nothing else |
| CategoryTimeWidgetWorker.RemoteViews.SetViewVisibility | mobile/src/main/java/net/activitywatch/android/widget/CategoryTimeWidgetWorker.kt:163 | sets one view's visibility, nothing else |
| CategoryTimeWidgetWorker.RemoteViews.SetImageViewBitmap | mobile/src/main/java/net/activitywatch/android/widget/CategoryTimeWidgetWorker.kt:153 | sets one image view's bitmap, nothing else |
| CategoryTimeWidgetWorker.WithAppTextsSpec | mobile/src/main/java/net/activitywatch/android/widget/CategoryTimeWidgetWorker.kt:156-162 | rows below both n and the number of entries show entry i's name and short duration; other rows get no text; earlier texts are kept |
| CategoryTimeWidgetWorker.AppRowVisibilitySpec | mobile/src/main/java/net/activitywatch/android/widget/CategoryTimeWidgetWorker.kt:158-166 | each row handled is set, visible iff i is below the number of entries |
| CategoryTimeWidgetWorker.WidgetForSpec | mobile/src/main/java/net/activitywatch/android/widget/CategoryTimeWidgetWorker.kt:141-172 | header hours and minutes of the total, the bar chart, the timestamp, rows 0..2 visible iff i < min(3, n) with name and duration |
| CategoryTimeWidgetWorker.UpdateSingleWidget | mobile/src/main/java/net/activitywatch/android/widget/CategoryTimeWidgetWorker.kt:127-182 | the loop fills a fresh view set with exactly the widget contents; without category data only "0" hours and "0" minutes |

## Left out

- Floating point is not modelled:
  - `durationMinutes`, `durationHours`, `totalMinutes`, `totalHours`;
  - the `Double` helpers of `SessionUtils`;
  - the pixel geometry, proportions and paint of the bar chart.
  `durationSeconds` is the exact rational `durationMs / 1000`.
- SessionParser.GetSessionStats: the average is stated as the exact mean truncated toward zero; `Double` rounding of very large sums is not modelled.
- Integers are unbounded; 64-bit `Long` overflow is not modelled (the 32-bit overflow of the day offset is, see Findings).
- The OS usage query, the package-manager lookup, the clock, the calendar (`getStartOfDay`, `getStartOfDayDaysAgo`) and ISO timestamp parsing are inputs to the model, not modelled code.
- `AsyncTask` threading: the send task runs sequentially, with its progress callback applied in line, and `onPostExecute` only logs.
- The native store (`RustInterface`, JNI) is reduced to the buckets it holds and the events appended to the session bucket. Inserts never fail, because the code never looks at their result.
- `sessionEvents` records the insert requests sent to the store, one per session, not the store's contents: the native store may merge an inserted event into the previous one (for example the re-sent last session), and that merging is not modelled.
- `getEventsJSON` returns some list of serialised events (`fetched`); which event the store considers last is its own business.
- `getTimelineForDay` is the same call as `SessionParser.ParseUsageEventsForDay` and has no member of its own.
- `clearSessionEvents` only logs, so it has no member.
- `getSessionEventCount` returns the store's own count of events and is not modelled.
- `sendSessionEvents` only starts the task.
- `MAX_ORPHANED_SESSION_DURATION` and `ActivityState` are unused in the code and have no behaviour here.
- Logging, and Android lifecycle callbacks without logic (`onInterrupt`, `onPostExecute`), are left out.
- `WebWatcher` exceptions: the `try`/`catch` around URL extraction only guards platform calls, which the model treats as total.
- View-id lookup is a map from view ids to the text found there, and only the first match is read.
- WebView nodes are never recycled, since recycling is platform memory management.
- CategoryTimeWidgetWorker.UpdateSingleWidget: the category list (`getCategoryTimesToday`, `parseCategories`) is an input. Any failure before the header is written is modelled as missing data, which leaves only the "0"/"0" header. A failure in the middle of the update, after some views were set, is not modelled.
- The widget timestamp is an input string; date formatting is not modelled.
- `updateAllWidgets`, `doWork`, periodic scheduling and `updateAppWidget` are left out; they are platform plumbing around `updateSingleWidget`.

## Findings

| source | as written | input that shows it | evidently intended | confidence | as-written member | corrected member |
|---|---|---|---|---|---|---|
| mobile/src/main/java/net/activitywatch/android/parser/SessionParser.kt:221 | `i * 24 * 60 * 60 * 1000` is computed in 32-bit `Int` before it is added to the `Long` start day | `numberOfDays = 26`: day `i = 25` gets the start `startDay - 2,134,967,296` ms, about 24.7 days before the first day | day `i` starts exactly `i` days after `startDay` | not executed | SessionParser.DayStartAsWrittenWrapsAt25 | SessionParser.ParseUsageEventsForDays |
