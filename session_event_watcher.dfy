/** The watcher that turns parsed usage sessions into insert requests to the local
    ActivityWatch store. The store is modelled by the two things the watcher changes
    in it: the set of buckets and the sequence of events inserted into the session
    bucket. The background task runs sequentially here, its progress callback in line. */
module SessionEventWatcher {
  import opened Sorting
  import opened SessionModels
  import opened SessionParser

  const SESSION_BUCKET_ID: string := "aw-watcher-android-test"
  const UNLOCK_BUCKET_ID: string := "aw-watcher-android-unlock"

  /** An event as handed to the store: start instant (ms), duration in seconds, data. */
  datatype StoredEvent = StoredEvent(timestamp: int, duration: real, data: map<string, string>)

  /** `insertSessionAsEvent`'s event for one session: it starts when the session starts
      and lasts `durationSeconds`, the session's duration in seconds. */
  function RecordOf(session: AppSession): (event: StoredEvent)
    ensures event.timestamp == session.startTime
    ensures event.duration * 1000.0 == session.durationMs as real
    ensures event.data == ToEventData(session)
  {
    StoredEvent(session.startTime, session.durationMs as real / 1000.0, ToEventData(session))
  }

  /** The events inserted for `sessions`, one per session, in list order. */
  function Records(sessions: seq<AppSession>): (events: seq<StoredEvent>)
    ensures |events| == |sessions|
    ensures forall k :: 0 <= k < |sessions| ==> events[k] == RecordOf(sessions[k])
    decreases |sessions|
  {
    if sessions == [] then [] else Records(sessions[..|sessions| - 1]) + [RecordOf(sessions[|sessions| - 1])]
  }

  lemma RecordsAppend(sessions: seq<AppSession>, session: AppSession)
    ensures Records(sessions + [session]) == Records(sessions) + [RecordOf(session)]
  {
    assert (sessions + [session])[..|sessions|] == sessions;
  }

  /** One more day appends that day's timeline sessions. */
  lemma SessionsOfLastDaysStep(i: nat, startOfDayDaysAgo: int -> int, query: (int, int) -> seq<RawEvent>, labels: map<string, string>)
    ensures SessionsOfLastDays(i + 1, startOfDayDaysAgo, query, labels) ==
      SessionsOfLastDays(i, startOfDayDaysAgo, query, labels) + DayTimelineFor(DayStartAgo(startOfDayDaysAgo, i), query, labels).sessions
  {
  }

  lemma {:induction false} RecordsConcat(sent: seq<StoredEvent>, done: seq<AppSession>, more: seq<AppSession>)
    ensures sent + Records(done) + Records(more) == sent + Records(done + more)
    decreases |more|
  {
    if more != [] {
      var init := more[..|more| - 1];
      var last := more[|more| - 1];
      assert more == init + [last];
      assert done + more == (done + init) + [last];
      RecordsConcat(sent, done, init);
      RecordsAppend(init, last);
      RecordsAppend(done + init, last);
    } else {
      assert done + more == done;
    }
  }

  lemma RecordsPrefixStep(sent: seq<StoredEvent>, sessions: seq<AppSession>, k: nat)
    requires k < |sessions|
    ensures sent + Records(sessions[..k]) + [RecordOf(sessions[k])] == sent + Records(sessions[..k + 1])
  {
    assert sessions[..k + 1] == sessions[..k] + [sessions[k]];
    RecordsAppend(sessions[..k], sessions[k]);
  }

  /** `getLastEventTime`: `fetched` holds the timestamp strings of the events the store
      returns for the session bucket with limit 1, and `parse` reads one as an instant
      (None when it cannot). Only exactly one fetched event yields a time. */
  function GetLastEventTime(fetched: seq<string>, parse: string -> Option<int>): (time: Option<int>)
    ensures time.Some? <==> |fetched| == 1 && parse(fetched[0]).Some?
    ensures time.Some? ==> time == parse(fetched[0])
  {
    if |fetched| == 1 then parse(fetched[0]) else None
  }

  /** `lastUpdated?.toEpochMilli() ?: 0L`. */
  function WindowStart(lastUpdated: Option<int>): (start: int)
    ensures lastUpdated.None? ==> start == 0
    ensures lastUpdated.Some? ==> start == lastUpdated.value
  {
    match lastUpdated
    case None => 0
    case Some(t) => t
  }

  /** The value `lastUpdated` holds after a run that sent `sessions`, having started
      from `initial`: the end of the last session whose index is a multiple of 10. */
  function LastProgress(initial: Option<int>, sessions: seq<AppSession>): (last: Option<int>)
    ensures sessions == [] ==> last == initial
    ensures sessions != [] ==>
      exists k :: 0 <= k < |sessions| && k % 10 == 0 && |sessions| <= k + 10 && last == Some(sessions[k].endTime)
  {
    if sessions == [] then initial
    else
      var k := (|sessions| - 1) / 10 * 10;
      assert k % 10 == 0 && |sessions| <= k + 10;
      Some(sessions[k].endTime)
  }

  /** Sending one more session moves the progress value only when its index is a multiple of 10. */
  lemma LastProgressStep(initial: Option<int>, sessions: seq<AppSession>, k: nat)
    requires k < |sessions|
    ensures LastProgress(initial, sessions[..k + 1]) ==
      if k % 10 == 0 then Some(sessions[k].endTime) else LastProgress(initial, sessions[..k])
  {
    var q := k / 10;
    assert k == q * 10 + k % 10;
    if k % 10 != 0 {
      assert (k - 1) / 10 == q;
    }
  }

  /** The incremental window restarts at the START of the session whose event the store
      reports as its latest, not at its end: that session lies inside the next window. */
  lemma CursorRevisitsLastSession(events: seq<UsageEvent>, labels: map<string, string>, session: AppSession,
                                   stamp: string, parse: string -> Option<int>)
    requires session in ParseSessions(events, labels)
    requires parse(stamp) == Some(RecordOf(session).timestamp)
    ensures WindowStart(GetLastEventTime([stamp], parse)) == session.startTime
    ensures WindowStart(GetLastEventTime([stamp], parse)) < session.endTime
  {
    ParsedSessionsBounded(events, labels);
  }

  /** Day `d` of `sendSessionEventsForLastDays` starts at `startOfDayDaysAgo(d)`. */
  function DayStartAgo(startOfDayDaysAgo: int -> int, d: int): int
  {
    startOfDayDaysAgo(d)
  }

  /** The sessions of the first `n` days counted back from today, day after day,
      each day's sessions in start order. */
  function SessionsOfLastDays(n: nat, startOfDayDaysAgo: int -> int, query: (int, int) -> seq<RawEvent>, labels: map<string, string>): (sessions: seq<AppSession>)
    decreases n
  {
    if n == 0 then []
    else
      var today := DayTimelineFor(DayStartAgo(startOfDayDaysAgo, n - 1), query, labels);
      SessionsOfLastDays(n - 1, startOfDayDaysAgo, query, labels) + today.sessions
  }

  /** The buckets after `createBucketHelper(bucketId, bucketType)`: the bucket exists
      afterwards, every bucket that existed keeps its type, and nothing else is added. */
  function WithBucket(buckets: map<string, string>, bucketId: string, bucketType: string): (after: map<string, string>)
    ensures after.Keys == buckets.Keys + {bucketId}
    ensures forall b :: b in buckets ==> after[b] == buckets[b]
    ensures bucketId !in buckets ==> after[bucketId] == bucketType
  {
    if bucketId in buckets then buckets else buckets[bucketId := bucketType]
  }

  /** Creating a bucket a second time changes nothing. */
  lemma WithBucketIdempotent(buckets: map<string, string>, bucketId: string, bucketType: string, otherType: string)
    ensures WithBucket(WithBucket(buckets, bucketId, bucketType), bucketId, otherType) == WithBucket(buckets, bucketId, bucketType)
  {
  }

  class SessionEventWatcher {
    /** The progress cursor: set by the send task first to the start of the latest
        stored event (or none), then to the end of each session reported as progress. */
    var lastUpdated: Option<int>
    /** The store's buckets, by id, with their type. */
    var buckets: map<string, string>
    /** The events inserted into the session bucket, oldest first. */
    var sessionEvents: seq<StoredEvent>

    constructor(storeBuckets: map<string, string>, storedEvents: seq<StoredEvent>)
      ensures lastUpdated == None && buckets == storeBuckets && sessionEvents == storedEvents
    {
      lastUpdated := None;
      buckets := storeBuckets;
      sessionEvents := storedEvents;
    }

    /** `createBucketHelper`: creates the bucket only when the store does not know it. */
    method CreateBucketHelper(bucketId: string, bucketType: string)
      modifies this
      ensures buckets == WithBucket(old(buckets), bucketId, bucketType)
      ensures lastUpdated == old(lastUpdated) && sessionEvents == old(sessionEvents)
    {
      if bucketId !in buckets {
        buckets := buckets[bucketId := bucketType];
      }
    }

    /** `insertSessionAsEvent`: one insert request per session into the session bucket. */
    method InsertSessionAsEvent(session: AppSession)
      modifies this
      ensures sessionEvents == old(sessionEvents) + [RecordOf(session)]
      ensures lastUpdated == old(lastUpdated) && buckets == old(buckets)
    {
      sessionEvents := sessionEvents + [RecordOf(session)];
    }

    /** `onProgressUpdate`: the cursor moves to the end of the reported session. */
    method OnProgressUpdate(session: AppSession)
      modifies this
      ensures lastUpdated == Some(session.endTime)
      ensures buckets == old(buckets) && sessionEvents == old(sessionEvents)
    {
      lastUpdated := Some(session.endTime);
    }

    /** `SendSessionEventTask.doInBackground` with its progress updates: sends every
        session parsed since the store's latest event, in order, and counts them.
        `now` is the clock reading that ends the window. */
    method SendSessionEventTask(fetched: seq<string>, parse: string -> Option<int>, now: int,
                                query: (int, int) -> seq<RawEvent>, labels: map<string, string>)
      returns (eventsSent: int)
      modifies this
      ensures buckets == WithBucket(WithBucket(old(buckets), SESSION_BUCKET_ID, "currentwindow"), UNLOCK_BUCKET_ID, "os.lockscreen.unlocks")
      ensures var sessions := SessionsInWindow(WindowStart(GetLastEventTime(fetched, parse)), now, query, labels);
        && sessionEvents == old(sessionEvents) + Records(sessions)
        && eventsSent == |sessions|
        && lastUpdated == LastProgress(GetLastEventTime(fetched, parse), sessions)
    {
      CreateBucketHelper(SESSION_BUCKET_ID, "currentwindow");
      CreateBucketHelper(UNLOCK_BUCKET_ID, "os.lockscreen.unlocks");
      lastUpdated := GetLastEventTime(fetched, parse);
      var startTimestamp := WindowStart(lastUpdated);
      var sessions := ParseUsageEventsSince(startTimestamp, now, query, labels);
      eventsSent := SendWithProgress(sessions);
    }

    /** The send loop of `doInBackground`: inserts the sessions in order, counts them, and
        publishes progress for every tenth one, starting with the first. */
    method SendWithProgress(sessions: seq<AppSession>) returns (eventsSent: int)
      modifies this
      ensures sessionEvents == old(sessionEvents) + Records(sessions)
      ensures eventsSent == |sessions|
      ensures lastUpdated == LastProgress(old(lastUpdated), sessions)
      ensures buckets == old(buckets)
    {
      ghost var sent, initial := sessionEvents, lastUpdated;
      eventsSent := 0;
      while eventsSent < |sessions|
        invariant 0 <= eventsSent <= |sessions|
        invariant sessionEvents == sent + Records(sessions[..eventsSent])
        invariant lastUpdated == LastProgress(initial, sessions[..eventsSent])
        invariant buckets == old(buckets)
      {
        var session := sessions[eventsSent];
        InsertSessionAsEvent(session);
        if eventsSent % 10 == 0 {
          OnProgressUpdate(session);
        }
        LastProgressStep(initial, sessions, eventsSent);
        RecordsPrefixStep(sent, sessions, eventsSent);
        eventsSent := eventsSent + 1;
      }
      assert sessions[..eventsSent] == sessions;
    }

    /** The loop `for (session in sessions) { insertSessionAsEvent(session); sent++ }`
        that every bulk send of this watcher runs: sends in order and counts. */
    method InsertSessions(sessions: seq<AppSession>) returns (eventsSent: int)
      modifies this
      ensures sessionEvents == old(sessionEvents) + Records(sessions)
      ensures eventsSent == |sessions|
      ensures lastUpdated == old(lastUpdated) && buckets == old(buckets)
    {
      eventsSent := 0;
      while eventsSent < |sessions|
        invariant 0 <= eventsSent <= |sessions|
        invariant sessionEvents == old(sessionEvents) + Records(sessions[..eventsSent])
        invariant lastUpdated == old(lastUpdated) && buckets == old(buckets)
      {
        InsertSessionAsEvent(sessions[eventsSent]);
        RecordsPrefixStep(old(sessionEvents), sessions, eventsSent);
        eventsSent := eventsSent + 1;
      }
      assert sessions[..eventsSent] == sessions;
    }

    /** `sendSessionEventsForDay`: sends the day's timeline sessions in start order;
        the cursor is not consulted and not moved. */
    method SendSessionEventsForDay(dayStartMs: int, query: (int, int) -> seq<RawEvent>, labels: map<string, string>)
      returns (eventsSent: int)
      modifies this
      ensures buckets == WithBucket(old(buckets), SESSION_BUCKET_ID, "currentwindow")
      ensures sessionEvents == old(sessionEvents) + Records(DayTimelineFor(dayStartMs, query, labels).sessions)
      ensures eventsSent == |DayTimelineFor(dayStartMs, query, labels).sessions|
      ensures lastUpdated == old(lastUpdated)
    {
      var timeline := ParseUsageEventsForDay(dayStartMs, query, labels);
      CreateBucketHelper(SESSION_BUCKET_ID, "currentwindow");
      eventsSent := InsertSessions(timeline.sessions);
    }

    /** `sendSessionEventsForPeriod`: sends the sessions parsed from `[startTimestamp, endTimestamp)`. */
    method SendSessionEventsForPeriod(startTimestamp: int, endTimestamp: int, query: (int, int) -> seq<RawEvent>, labels: map<string, string>)
      returns (eventsSent: int)
      modifies this
      ensures buckets == WithBucket(old(buckets), SESSION_BUCKET_ID, "currentwindow")
      ensures sessionEvents == old(sessionEvents) + Records(SessionsInWindow(startTimestamp, endTimestamp, query, labels))
      ensures eventsSent == |SessionsInWindow(startTimestamp, endTimestamp, query, labels)|
      ensures lastUpdated == old(lastUpdated)
    {
      var sessions := ParseUsageEventsForPeriod(startTimestamp, endTimestamp, query, labels);
      CreateBucketHelper(SESSION_BUCKET_ID, "currentwindow");
      eventsSent := InsertSessions(sessions);
    }

    /** `insertSessionsAsEvents`: sends the given sessions, in order. */
    method InsertSessionsAsEvents(sessions: seq<AppSession>) returns (eventsSent: int)
      modifies this
      ensures buckets == WithBucket(old(buckets), SESSION_BUCKET_ID, "currentwindow")
      ensures sessionEvents == old(sessionEvents) + Records(sessions)
      ensures eventsSent == |sessions|
      ensures lastUpdated == old(lastUpdated)
    {
      CreateBucketHelper(SESSION_BUCKET_ID, "currentwindow");
      eventsSent := InsertSessions(sessions);
    }

    /** `sendSessionEventsForLastDays`: days 0 .. n-1 back from today, in that order,
        each day's sessions in start order; the total counts every session sent.
        `startOfDayDaysAgo` is the calendar. */
    method SendSessionEventsForLastDays(numberOfDays: int, startOfDayDaysAgo: int -> int,
                                        query: (int, int) -> seq<RawEvent>, labels: map<string, string>)
      returns (totalEventsSent: int)
      modifies this
      ensures buckets == WithBucket(old(buckets), SESSION_BUCKET_ID, "currentwindow")
      ensures var sent := SessionsOfLastDays(if numberOfDays > 0 then numberOfDays else 0, startOfDayDaysAgo, query, labels);
        sessionEvents == old(sessionEvents) + Records(sent) && totalEventsSent == |sent|
      ensures lastUpdated == old(lastUpdated)
    {
      CreateBucketHelper(SESSION_BUCKET_ID, "currentwindow");
      ghost var bucketsAfter := buckets;
      ghost var sent: seq<AppSession> := [];
      totalEventsSent := 0;
      var days: nat := if numberOfDays > 0 then numberOfDays else 0;
      for i := 0 to days
        invariant sent == SessionsOfLastDays(i, startOfDayDaysAgo, query, labels)
        invariant sessionEvents == old(sessionEvents) + Records(sent)
        invariant totalEventsSent == |sent|
        invariant buckets == bucketsAfter
        invariant lastUpdated == old(lastUpdated)
      {
        var dayStart := DayStartAgo(startOfDayDaysAgo, i);
        var timeline := ParseUsageEventsForDay(dayStart, query, labels);
        var daySent := InsertSessions(timeline.sessions);
        totalEventsSent := totalEventsSent + daySent;
        RecordsConcat(old(sessionEvents), sent, timeline.sessions);
        SessionsOfLastDaysStep(i, startOfDayDaysAgo, query, labels);
        sent := sent + timeline.sessions;
      }
    }

    /** `getSessionsSinceLastUpdate`: the sessions of the window that starts at the
        progress cursor (or at 0 before the first progress) and ends at the clock reading `now`. */
    method GetSessionsSinceLastUpdate(now: int, query: (int, int) -> seq<RawEvent>, labels: map<string, string>)
      returns (sessions: seq<AppSession>)
      ensures sessions == SessionsInWindow(WindowStart(lastUpdated), now, query, labels)
      ensures lastUpdated.None? ==> sessions == SessionsInWindow(0, now, query, labels)
    {
      var startTimestamp := WindowStart(lastUpdated);
      sessions := ParseUsageEventsSince(startTimestamp, now, query, labels);
    }

    /** `insertSessionEvent`: one session of the given length starting at `startTime`. */
    method InsertSessionEvent(packageName: string, appName: string, className: string, startTime: int, durationMs: int)
      modifies this
      ensures buckets == WithBucket(old(buckets), SESSION_BUCKET_ID, "currentwindow")
      ensures sessionEvents == old(sessionEvents) +
        [RecordOf(NewSession(packageName, appName, className, startTime, startTime + durationMs))]
      ensures lastUpdated == old(lastUpdated)
    {
      var session := NewSession(packageName, appName, className, startTime, startTime + durationMs);
      CreateBucketHelper(SESSION_BUCKET_ID, "currentwindow");
      InsertSessionAsEvent(session);
    }

    /** `forceRefreshToday`: resends all of today's sessions; `today` is the calendar's
        start of the current day. */
    method ForceRefreshToday(today: int, query: (int, int) -> seq<RawEvent>, labels: map<string, string>)
      modifies this
      ensures sessionEvents == old(sessionEvents) + Records(DayTimelineFor(today, query, labels).sessions)
      ensures buckets == WithBucket(old(buckets), SESSION_BUCKET_ID, "currentwindow")
      ensures lastUpdated == old(lastUpdated)
    {
      var _ := SendSessionEventsForDay(today, query, labels);
    }
  }

  /** The event `insertSessionEvent` stores starts at `startTime` and lasts `durationMs`. */
  lemma InsertedSessionEventShape(packageName: string, appName: string, className: string, startTime: int, durationMs: int)
    ensures var event := RecordOf(NewSession(packageName, appName, className, startTime, startTime + durationMs));
      event.timestamp == startTime && event.duration * 1000.0 == durationMs as real &&
      event.data["package"] == packageName && event.data["app"] == appName
  {
  }
}
