/** Stateless helpers used around session parsing: duration formatting,
    plausibility checks, gaps between sessions and the app-label fallback. */
module SessionUtils {
  import opened Text

  const MS_PER_SECOND: int := 1000
  const MS_PER_MINUTE: int := 60 * 1000
  const MS_PER_HOUR: int := 60 * 60 * 1000

  /** `TimeUnit.MILLISECONDS.toHours(d)`, `toMinutes(d) % 60` and `toSeconds(d) % 60`:
      JVM conversions and remainders, both truncating toward zero. */
  function DurationParts(durationMs: int): (parts: (int, int, int))
    ensures durationMs >= 0 ==>
      parts.0 >= 0 && 0 <= parts.1 < 60 && 0 <= parts.2 < 60 &&
      var whole := parts.0 * MS_PER_HOUR + parts.1 * MS_PER_MINUTE + parts.2 * MS_PER_SECOND;
      whole <= durationMs < whole + MS_PER_SECOND
    ensures durationMs < 0 ==> parts.0 <= 0 && -60 < parts.1 <= 0 && -60 < parts.2 <= 0
  {
    var parts := (JavaDiv(durationMs, MS_PER_HOUR),
                  JavaRem(JavaDiv(durationMs, MS_PER_MINUTE), 60),
                  JavaRem(JavaDiv(durationMs, MS_PER_SECOND), 60));
    if durationMs >= 0 then
      PartsRecompose(durationMs);
      parts
    else
      parts
  }

  lemma PartsRecompose(d: int)
    requires d >= 0
    ensures var h, m, s := d / 3600000, (d / 60000) % 60, (d / 1000) % 60;
      h >= 0 && 0 <= m < 60 && 0 <= s < 60 &&
      h * 3600000 + m * 60000 + s * 1000 <= d < h * 3600000 + m * 60000 + s * 1000 + 1000
  {
    var h, mm, ss := d / 3600000, d / 60000, d / 1000;
    assert 3600000 * h <= d < 3600000 * h + 3600000;
    assert 60000 * mm <= d < 60000 * mm + 60000;
    assert 1000 * ss <= d < 1000 * ss + 1000;
    assert 60 * h <= mm < 60 * h + 60;
    assert mm / 60 == h;
    assert 60 * mm <= ss < 60 * mm + 60;
    assert ss / 60 == mm;
  }

  /** Which parts are positive: the hours from one hour on, the minutes from one minute on. */
  lemma DurationPartsForm(d: int)
    ensures var (h, m, s) := DurationParts(d);
      && (h > 0 <==> d >= MS_PER_HOUR)
      && (h <= 0 ==> (m > 0 <==> d >= MS_PER_MINUTE))
  {
    var (h, m, s) := DurationParts(d);
    if d >= MS_PER_HOUR {
      assert h == d / 3600000;
    } else if d >= MS_PER_MINUTE {
      assert h == 0;
      var mm := d / 60000;
      assert 1 <= mm < 60;
      assert m == mm;
    } else if d >= 0 {
      assert h == 0 && d / 60000 == 0;
    }
  }

  /** "{h}h {m}m" from one hour on, "{m}m {s}s" from one minute on, "{s}s" below. */
  function FormatDuration(durationMs: int): (text: string)
    ensures var (h, m, s) := DurationParts(durationMs);
      && (durationMs >= MS_PER_HOUR ==> text == IntToString(h) + "h " + IntToString(m) + "m")
      && (MS_PER_MINUTE <= durationMs < MS_PER_HOUR ==> text == IntToString(m) + "m " + IntToString(s) + "s")
      && (durationMs < MS_PER_MINUTE ==> text == IntToString(s) + "s")
  {
    DurationPartsForm(durationMs);
    var (hours, minutes, seconds) := DurationParts(durationMs);
    if hours > 0 then IntToString(hours) + "h " + IntToString(minutes) + "m"
    else if minutes > 0 then IntToString(minutes) + "m " + IntToString(seconds) + "s"
    else IntToString(seconds) + "s"
  }

  /** The inclusive plausibility window [1 s, 4 h] for a session's length. */
  predicate IsReasonableDuration(durationMs: int)
  {
    1000 <= durationMs && durationMs <= 4 * 60 * 60 * 1000
  }

  /** At most one minute in the future of `now` (the clock reading). */
  predicate IsReasonableTimestamp(timestamp: int, now: int)
  {
    timestamp <= now + 60000
  }

  /** The window is inclusive: exactly one minute ahead is still plausible, a
      millisecond more is not, and any time not after `now` is. */
  lemma ReasonableTimestampBoundary(timestamp: int, now: int)
    ensures IsReasonableTimestamp(now + 60000, now) && !IsReasonableTimestamp(now + 60001, now)
    ensures timestamp <= now ==> IsReasonableTimestamp(timestamp, now)
  {
  }

  /** The idle time between the end of one session and the start of the next. */
  function CalculateSessionGap(session1EndTime: int, session2StartTime: int): (gap: int)
    ensures gap >= 0
    ensures gap == 0 <==> session2StartTime <= session1EndTime
    ensures gap > 0 ==> session1EndTime + gap == session2StartTime
  {
    if session2StartTime - session1EndTime > 0 then session2StartTime - session1EndTime else 0
  }

  predicate IsSameApp(packageName1: string, packageName2: string)
  {
    packageName1 == packageName2
  }

  lemma IsSameAppIsEquivalence(a: string, b: string, c: string)
    ensures IsSameApp(a, a)
    ensures IsSameApp(a, b) ==> IsSameApp(b, a)
    ensures IsSameApp(a, b) && IsSameApp(b, c) ==> IsSameApp(a, c)
  {
  }

  /** `packageName.split(".").last()`: what follows the last dot, the whole
      name when there is no dot, "" when the name ends with a dot. */
  function AppNameFallback(packageName: string): (lastSegment: string)
    ensures '.' !in lastSegment
    ensures |lastSegment| <= |packageName| && packageName[|packageName| - |lastSegment|..] == lastSegment
    ensures |lastSegment| < |packageName| ==> packageName[|packageName| - |lastSegment| - 1] == '.'
    decreases |packageName|
  {
    if packageName == [] then []
    else if packageName[|packageName| - 1] == '.' then []
    else
      var n, init := |packageName|, packageName[..|packageName| - 1];
      var rest := AppNameFallback(init);
      assert packageName[n - 1 - |rest|..] == init[n - 1 - |rest|..] + [packageName[n - 1]];
      assert |rest| < n - 1 ==> packageName[n - |rest| - 2] == init[n - |rest| - 2];
      rest + [packageName[n - 1]]
  }

  lemma {:induction false} AppNameFallbackWithoutDot(packageName: string)
    requires '.' !in packageName
    ensures AppNameFallback(packageName) == packageName
    decreases |packageName|
  {
    if packageName != [] {
      var init := packageName[..|packageName| - 1];
      assert forall c :: c in init ==> c in packageName;
      AppNameFallbackWithoutDot(init);
      assert packageName[|packageName| - 1] in packageName;
      assert packageName == init + [packageName[|packageName| - 1]];
    }
  }

  /** `getAppName`: the label the package manager knows (`labels`), else the fallback. */
  function GetAppName(labels: map<string, string>, packageName: string): (name: string)
    ensures packageName !in labels ==> name == AppNameFallback(packageName)
  {
    if packageName in labels then labels[packageName] else AppNameFallback(packageName)
  }
}
