/** Turns the usage events the OS reports into app sessions, per-app summaries,
    a day timeline and statistics. The OS usage query and the package-manager
    label lookup are inputs: `query` maps a window [begin, end) to the raw events
    the OS returns for it, `labels` maps installed package names to their labels. */
module SessionParser {
  import opened Text
  import opened Sorting
  import opened SessionModels
  import opened SessionUtils

  /** 4 hours: a pairing this long or longer is not trusted. */
  const MAX_REASONABLE_SESSION_DURATION: int := 4 * 60 * 60 * 1000
  /** 1 second: a pairing this short or shorter is noise. */
  const MIN_SESSION_DURATION: int := 1000
  const DAY_MS: int := 24 * 60 * 60 * 1000

  /** An event as the OS hands it over; its package and class names may be null. */
  datatype RawEvent = RawEvent(
    eventType: int,
    timeStamp: int,
    packageName: Option<string>,
    className: Option<string>)

  // ---------------------------------------------------------------- extraction

  predicate IsRelevantEvent(e: RawEvent)
  {
    e.eventType == ACTIVITY_RESUMED || e.eventType == ACTIVITY_PAUSED
  }

  function OrEmpty(name: Option<string>): string
  {
    if name.Some? then name.value else ""
  }

  function ToUsageEvent(e: RawEvent): UsageEvent
  {
    UsageEvent(e.eventType, e.timeStamp, OrEmpty(e.packageName), OrEmpty(e.className))
  }

  /** The relevant events of `raw`, converted, in stream order. */
  function RelevantEvents(raw: seq<RawEvent>): seq<UsageEvent>
    decreases |raw|
  {
    if raw == [] then []
    else
      var last := raw[|raw| - 1];
      RelevantEvents(raw[..|raw| - 1]) + if IsRelevantEvent(last) then [ToUsageEvent(last)] else []
  }

  function TimeStampOf(e: UsageEvent): int { e.timeStamp }

  predicate IsTransition(e: UsageEvent)
  {
    e.eventType == ACTIVITY_RESUMED || e.eventType == ACTIVITY_PAUSED
  }

  /** What `extractRawEvents` returns: the relevant events, stably sorted by time. */
  function ExtractedEvents(raw: seq<RawEvent>): seq<UsageEvent>
  {
    SortBy(RelevantEvents(raw), TimeStampOf)
  }

  lemma {:induction false} RelevantEventsSpec(raw: seq<RawEvent>)
    ensures forall k :: 0 <= k < |RelevantEvents(raw)| ==> IsTransition(RelevantEvents(raw)[k])
    ensures forall e :: e in raw && IsRelevantEvent(e) ==> ToUsageEvent(e) in RelevantEvents(raw)
    ensures forall u :: u in RelevantEvents(raw) ==> exists e :: e in raw && IsRelevantEvent(e) && u == ToUsageEvent(e)
    decreases |raw|
  {
    if raw != [] {
      var init := raw[..|raw| - 1];
      var last := raw[|raw| - 1];
      RelevantEventsSpec(init);
      assert raw == init + [last];
      forall u | u in RelevantEvents(raw)
        ensures exists e :: e in raw && IsRelevantEvent(e) && u == ToUsageEvent(e)
      {
        if u in RelevantEvents(init) {
          var e :| e in init && IsRelevantEvent(e) && u == ToUsageEvent(e);
          assert e in raw;
        } else {
          assert IsRelevantEvent(last) && u == ToUsageEvent(last);
        }
      }
    }
  }

  /** Extraction keeps only RESUMED/PAUSED events, maps null names to "", sorts by
      time, and keeps the stream order of events with equal timestamps. */
  method ExtractRawEvents(raw: seq<RawEvent>) returns (events: seq<UsageEvent>)
    ensures events == ExtractedEvents(raw)
    ensures SortedBy(events, TimeStampOf)
    ensures multiset(events) == multiset(RelevantEvents(raw))
    ensures forall k :: 0 <= k < |events| ==> IsTransition(events[k])
    ensures forall t :: WithKey(events, TimeStampOf, t) == WithKey(RelevantEvents(raw), TimeStampOf, t)
  {
    var collected: seq<UsageEvent> := [];
    var n := 0;
    while n < |raw|
      invariant 0 <= n <= |raw|
      invariant collected == RelevantEvents(raw[..n])
    {
      var event := raw[n];
      assert raw[..n + 1][..n] == raw[..n];
      if IsRelevantEvent(event) {
        collected := collected + [ToUsageEvent(event)];
      }
      n := n + 1;
    }
    assert raw[..n] == raw;
    events := SortBy(collected, TimeStampOf);
    RelevantEventsSpec(raw);
    forall k | 0 <= k < |events|
      ensures IsTransition(events[k])
    {
      assert events[k] in multiset(collected);
    }
    forall t
      ensures WithKey(events, TimeStampOf, t) == WithKey(collected, TimeStampOf, t)
    {
      SortByStable(collected, TimeStampOf, t);
    }
  }

  // ---------------------------------------------------------------- pairing

  /** The scan started at the RESUME at `i` stops at `j`: same package, and a RESUMED or PAUSED event. */
  predicate StopsScan(events: seq<UsageEvent>, i: nat, j: nat)
    requires i < |events| && j < |events|
  {
    events[j].packageName == events[i].packageName && IsTransition(events[j])
  }

  /** The first index from `j` on where the scan for the event at `i` stops, or |events|. */
  function NextSameApp(events: seq<UsageEvent>, i: nat, j: nat): (k: nat)
    requires i < |events| && j <= |events|
    ensures j <= k <= |events|
    ensures k < |events| ==> StopsScan(events, i, k)
    ensures forall m :: j <= m < k ==> !StopsScan(events, i, m)
    decreases |events| - j
  {
    if j == |events| then j
    else if StopsScan(events, i, j) then j
    else NextSameApp(events, i, j + 1)
  }

  /** The strict filter of the parser: longer than 1 s and shorter than 4 h. */
  predicate AcceptedDuration(durationMs: int)
  {
    MIN_SESSION_DURATION < durationMs && durationMs < MAX_REASONABLE_SESSION_DURATION
  }

  /** The PAUSE that closes an accepted session started by the event at `i`, if any. */
  function PairedPause(events: seq<UsageEvent>, i: nat): Option<nat>
    requires i < |events|
  {
    if events[i].eventType != ACTIVITY_RESUMED then None
    else
      var k := NextSameApp(events, i, i + 1);
      if k < |events| && events[k].eventType == ACTIVITY_PAUSED
         && AcceptedDuration(events[k].timeStamp - events[i].timeStamp)
      then Some(k)
      else None
  }

  /** A RESUME at `i` and a PAUSE at `k` of the same package with no RESUMED or
      PAUSED event of that package between them. */
  predicate CleanPair(events: seq<UsageEvent>, i: nat, k: nat)
  {
    i < k < |events|
    && events[i].eventType == ACTIVITY_RESUMED
    && events[k].eventType == ACTIVITY_PAUSED
    && events[k].packageName == events[i].packageName
    && forall m :: i < m < k ==> !StopsScan(events, i, m)
  }

  /** A RESUME is paired with exactly the PAUSE that cleanly follows it, when the
      duration passes the strict filter. */
  lemma PairedPauseSpec(events: seq<UsageEvent>, i: nat, k: nat)
    requires i < |events|
    ensures PairedPause(events, i) == Some(k) <==>
      CleanPair(events, i, k) && AcceptedDuration(events[k].timeStamp - events[i].timeStamp)
  {
    if CleanPair(events, i, k) {
      var n := NextSameApp(events, i, i + 1);
      assert StopsScan(events, i, k);
      assert n < |events|;
      assert StopsScan(events, i, n);
    }
  }

  /** Each PAUSE ends at most one session. */
  lemma PairedPauseInjective(events: seq<UsageEvent>, i1: nat, i2: nat)
    requires i1 < |events| && i2 < |events|
    ensures PairedPause(events, i1).Some? && PairedPause(events, i1) == PairedPause(events, i2) ==> i1 == i2
  {
    if PairedPause(events, i1).Some? && PairedPause(events, i1) == PairedPause(events, i2) {
      var k := PairedPause(events, i1).value;
      PairedPauseSpec(events, i1, k);
      PairedPauseSpec(events, i2, k);
      assert StopsScan(events, i1, i2) && StopsScan(events, i2, i1);
    }
  }

  /** The (resume, pause) index pairs of the sessions built from the RESUMEs before `m`. */
  function PairsBefore(events: seq<UsageEvent>, m: nat): (pairs: seq<(nat, nat)>)
    requires m <= |events|
    ensures forall p :: 0 <= p < |pairs| ==> pairs[p].0 < m && PairedPause(events, pairs[p].0) == Some(pairs[p].1)
    ensures forall p, q :: 0 <= p < q < |pairs| ==> pairs[p].0 < pairs[q].0
    decreases m
  {
    if m == 0 then []
    else
      var earlier := PairsBefore(events, m - 1);
      match PairedPause(events, m - 1)
      case Some(k) => earlier + [(m - 1, k)]
      case None => earlier
  }

  /** The outer loop examines every index but the last. */
  function ScanLimit(events: seq<UsageEvent>): nat
  {
    if |events| > 0 then |events| - 1 else 0
  }

  function Pairs(events: seq<UsageEvent>): seq<(nat, nat)>
  {
    PairsBefore(events, ScanLimit(events))
  }

  function SessionFor(events: seq<UsageEvent>, labels: map<string, string>, i: nat, k: nat): AppSession
    requires i < |events| && k < |events|
  {
    var pkg := events[i].packageName;
    NewSession(pkg, GetAppName(labels, pkg), events[i].className, events[i].timeStamp, events[k].timeStamp)
  }

  predicate PairsInRange(events: seq<UsageEvent>, pairs: seq<(nat, nat)>)
  {
    forall p :: 0 <= p < |pairs| ==> pairs[p].0 < |events| && pairs[p].1 < |events|
  }

  function SessionsOf(events: seq<UsageEvent>, labels: map<string, string>, pairs: seq<(nat, nat)>): (sessions: seq<AppSession>)
    requires PairsInRange(events, pairs)
    ensures |sessions| == |pairs|
    ensures forall p :: 0 <= p < |pairs| ==> sessions[p] == SessionFor(events, labels, pairs[p].0, pairs[p].1)
  {
    seq(|pairs|, p requires 0 <= p < |pairs| => SessionFor(events, labels, pairs[p].0, pairs[p].1))
  }

  lemma SessionsOfAppend(events: seq<UsageEvent>, labels: map<string, string>, pairs: seq<(nat, nat)>, i: nat, k: nat)
    requires PairsInRange(events, pairs) && i < |events| && k < |events|
    ensures PairsInRange(events, pairs + [(i, k)])
    ensures SessionsOf(events, labels, pairs + [(i, k)]) == SessionsOf(events, labels, pairs) + [SessionFor(events, labels, i, k)]
  {
    var longer := pairs + [(i, k)];
    assert PairsInRange(events, longer) by {
      forall p | 0 <= p < |longer|
        ensures longer[p].0 < |events| && longer[p].1 < |events|
      {
        if p < |pairs| {
          assert longer[p] == pairs[p];
        }
      }
    }
    var a := SessionsOf(events, labels, longer);
    var b := SessionsOf(events, labels, pairs) + [SessionFor(events, labels, i, k)];
    forall p | 0 <= p < |a|
      ensures a[p] == b[p]
    {
      if p < |pairs| {
        assert longer[p] == pairs[p];
      }
    }
    assert a == b;
  }

  /** What `parseEventsIntoSessions` returns, one session per accepted pair, in RESUME order. */
  function ParseSessions(events: seq<UsageEvent>, labels: map<string, string>): seq<AppSession>
  {
    SessionsOf(events, labels, Pairs(events))
  }

  /** The strict pairing scan. `periodEnd` is accepted and ignored, as in the source. */
  method ParseEventsIntoSessions(events: seq<UsageEvent>, periodEnd: int, labels: map<string, string>)
    returns (sessions: seq<AppSession>)
    ensures sessions == ParseSessions(events, labels)
  {
    sessions := [];
    var i := 0;
    while i < |events| - 1
      invariant 0 <= i <= ScanLimit(events)
      invariant sessions == SessionsOf(events, labels, PairsBefore(events, i))
    {
      var event := events[i];
      ghost var before, start := PairsBefore(events, i), sessions;
      ghost var target := PairedPause(events, i);
      if event.eventType == ACTIVITY_RESUMED {
        var j := i + 1;
        var foundValidPause := false;
        while j < |events| && !foundValidPause
          invariant i + 1 <= j <= |events|
          invariant !foundValidPause ==> NextSameApp(events, i, i + 1) == NextSameApp(events, i, j) && sessions == start
          invariant foundValidPause ==>
            sessions == start + (if target.Some? then [SessionFor(events, labels, i, target.value)] else [])
        {
          var nextEvent := events[j];
          if nextEvent.packageName == event.packageName {
            if nextEvent.eventType == ACTIVITY_PAUSED {
              var duration := nextEvent.timeStamp - event.timeStamp;
              if duration > MIN_SESSION_DURATION && duration < MAX_REASONABLE_SESSION_DURATION {
                var appName := GetAppName(labels, event.packageName);
                var session := NewSession(event.packageName, appName, event.className, event.timeStamp, nextEvent.timeStamp);
                sessions := sessions + [session];
              }
              foundValidPause := true;
            } else if nextEvent.eventType == ACTIVITY_RESUMED {
              break;
            }
          }
          j := j + 1;
        }
        assert sessions == start + (if target.Some? then [SessionFor(events, labels, i, target.value)] else []);
      }
      if target.Some? {
        SessionsOfAppend(events, labels, before, i, target.value);
      }
      i := i + 1;
    }
  }

  /** Every emitted session lasts strictly between 1 s and 4 h, so it ends after it starts. */
  lemma ParsedSessionsBounded(events: seq<UsageEvent>, labels: map<string, string>)
    ensures forall s :: s in ParseSessions(events, labels) ==>
      s.endTime > s.startTime && s.durationMs == s.endTime - s.startTime && AcceptedDuration(s.durationMs)
  {
    var pairs := Pairs(events);
    var sessions := ParseSessions(events, labels);
    forall s | s in sessions
      ensures s.endTime > s.startTime && s.durationMs == s.endTime - s.startTime && AcceptedDuration(s.durationMs)
    {
      var p :| 0 <= p < |sessions| && sessions[p] == s;
      PairedPauseSpec(events, pairs[p].0, pairs[p].1);
    }
  }

  /** Every emitted session comes from a clean RESUME/PAUSE pair of its package. */
  lemma ParsedSessionsFromCleanPairs(events: seq<UsageEvent>, labels: map<string, string>, p: nat)
    requires p < |ParseSessions(events, labels)|
    ensures var (i, k) := Pairs(events)[p];
      CleanPair(events, i, k)
      && ParseSessions(events, labels)[p].packageName == events[i].packageName
      && ParseSessions(events, labels)[p].className == events[i].className
      && ParseSessions(events, labels)[p].startTime == events[i].timeStamp
      && ParseSessions(events, labels)[p].endTime == events[k].timeStamp
  {
    var (i, k) := Pairs(events)[p];
    PairedPauseSpec(events, i, k);
  }

  /** Every clean pair with an accepted duration, other than one starting at the last
      index, yields a session. */
  lemma CleanPairYieldsSession(events: seq<UsageEvent>, i: nat, k: nat, m: nat)
    requires CleanPair(events, i, k) && AcceptedDuration(events[k].timeStamp - events[i].timeStamp)
    requires i < m <= |events|
    ensures (i, k) in PairsBefore(events, m)
    decreases m
  {
    PairedPauseSpec(events, i, k);
    if i < m - 1 {
      CleanPairYieldsSession(events, i, k, m - 1);
    }
  }

  /** No two emitted sessions end at the same PAUSE. */
  lemma PausesUsedOnce(events: seq<UsageEvent>)
    ensures forall p, q :: 0 <= p < q < |Pairs(events)| ==> Pairs(events)[p].1 != Pairs(events)[q].1
  {
    var pairs := Pairs(events);
    forall p, q | 0 <= p < q < |pairs|
      ensures pairs[p].1 != pairs[q].1
    {
      PairedPauseInjective(events, pairs[p].0, pairs[q].0);
    }
  }

  /** Sessions come out in start order when the events are in time order. */
  lemma ParsedSessionsSorted(events: seq<UsageEvent>, labels: map<string, string>)
    requires SortedBy(events, TimeStampOf)
    ensures SortedBy(ParseSessions(events, labels), StartTime)
  {
    var pairs := Pairs(events);
    var sessions := ParseSessions(events, labels);
    forall a, b | 0 <= a < b < |sessions|
      ensures StartTime(sessions[a]) <= StartTime(sessions[b])
    {
      assert TimeStampOf(events[pairs[a].0]) <= TimeStampOf(events[pairs[b].0]);
    }
  }

  /** The parser's strict bounds sit inside the inclusive reasonableness check and
      differ from it exactly at 1 s and at 4 h. */
  lemma StrictFilterVersusReasonable(durationMs: int)
    ensures AcceptedDuration(durationMs) ==> IsReasonableDuration(durationMs)
    ensures IsReasonableDuration(durationMs) && !AcceptedDuration(durationMs) <==>
      durationMs == 1000 || durationMs == 14400000
  {
  }

  /** A RESUME that no later PAUSE of its package follows starts no session. */
  lemma UnmatchedResumeYieldsNothing(events: seq<UsageEvent>, i: nat)
    requires i < |events| && events[i].eventType == ACTIVITY_RESUMED
    requires forall k :: i < k < |events| && events[k].packageName == events[i].packageName ==>
      events[k].eventType != ACTIVITY_PAUSED
    ensures PairedPause(events, i) == None
  {
    var k := NextSameApp(events, i, i + 1);
    assert k < |events| ==> events[k].packageName == events[i].packageName;
  }

  lemma {:induction false} NextSameAppExtended(events: seq<UsageEvent>, e: UsageEvent, i: nat, j: nat)
    requires i < |events| && j <= |events|
    ensures var k := NextSameApp(events, i, j);
      var k' := NextSameApp(events + [e], i, j);
      (k < |events| ==> k' == k) && (k == |events| ==> k' >= |events|)
    decreases |events| - j
  {
    var longer := events + [e];
    if j < |events| {
      assert longer[j] == events[j] && longer[i] == events[i];
      NextSameAppExtended(events, e, i, j + 1);
    }
  }

  lemma PairedPauseExtended(events: seq<UsageEvent>, e: UsageEvent, i: nat)
    requires e.eventType == ACTIVITY_RESUMED && i < |events|
    ensures PairedPause(events + [e], i) == PairedPause(events, i)
  {
    var longer := events + [e];
    assert longer[i] == events[i];
    NextSameAppExtended(events, e, i, i + 1);
    var k := NextSameApp(events, i, i + 1);
    if k < |events| {
      assert longer[k] == events[k];
    }
  }

  lemma {:induction false} PairsBeforeExtended(events: seq<UsageEvent>, e: UsageEvent, m: nat)
    requires e.eventType == ACTIVITY_RESUMED && m <= |events|
    ensures PairsBefore(events + [e], m) == PairsBefore(events, m)
    decreases m
  {
    if m > 0 {
      PairsBeforeExtended(events, e, m - 1);
      PairedPauseExtended(events, e, m - 1);
    }
  }

  /** A RESUME at the end of the window adds no session and changes none: it is
      neither closed at the window boundary nor does it disturb earlier pairings. */
  lemma TrailingResumeAddsNothing(events: seq<UsageEvent>, e: UsageEvent, labels: map<string, string>)
    requires e.eventType == ACTIVITY_RESUMED
    ensures ParseSessions(events + [e], labels) == ParseSessions(events, labels)
  {
    var longer := events + [e];
    var n := |events|;
    if n > 0 {
      PairsBeforeExtended(events, e, n - 1);
      var k := NextSameApp(longer, n - 1, n);
      assert k == n ==> longer[k] == e;
      assert PairedPause(longer, n - 1) == None;
      assert Pairs(longer) == Pairs(events);
      var pairs := Pairs(events);
      var a, b := ParseSessions(longer, labels), ParseSessions(events, labels);
      forall p | 0 <= p < |pairs|
        ensures a[p] == b[p]
      {
        assert longer[pairs[p].0] == events[pairs[p].0] && longer[pairs[p].1] == events[pairs[p].1];
      }
    }
  }

  // ---------------------------------------------------------------- scenarios

  function Resumed(pkg: string, cls: string, t: int): UsageEvent
  {
    UsageEvent(ACTIVITY_RESUMED, t, pkg, cls)
  }

  function Paused(pkg: string, cls: string, t: int): UsageEvent
  {
    UsageEvent(ACTIVITY_PAUSED, t, pkg, cls)
  }

  /** RESUME(A, t0), PAUSE(A, t1) with an accepted duration yields exactly A[t0, t1),
      carrying the RESUME's class name; the PAUSE's class name plays no part. */
  lemma CleanPairScenario(a: string, c0: string, c1: string, t0: int, t1: int, labels: map<string, string>)
    requires AcceptedDuration(t1 - t0)
    ensures ParseSessions([Resumed(a, c0, t0), Paused(a, c1, t1)], labels) ==
      [NewSession(a, GetAppName(labels, a), c0, t0, t1)]
  {
    var events := [Resumed(a, c0, t0), Paused(a, c1, t1)];
    PairedPauseSpec(events, 0, 1);
    assert Pairs(events) == [(0, 1)];
  }

  /** A pair whose duration fails the strict filter (1 s or less, 4 h or more) yields nothing. */
  lemma RejectedPairScenario(a: string, c0: string, c1: string, t0: int, t1: int, labels: map<string, string>)
    requires !AcceptedDuration(t1 - t0)
    ensures ParseSessions([Resumed(a, c0, t0), Paused(a, c1, t1)], labels) == []
  {
    var events := [Resumed(a, c0, t0), Paused(a, c1, t1)];
    PairedPauseSpec(events, 0, 1);
    assert PairedPause(events, 0) == None;
  }

  /** The PAUSE ends its RESUME's scan even when the pair is rejected: a later PAUSE
      of the same app is never paired with that RESUME. */
  lemma RejectedPauseStillEndsScan(a: string, t0: int, t1: int, t2: int, labels: map<string, string>)
    requires !AcceptedDuration(t1 - t0)
    ensures ParseSessions([Resumed(a, "", t0), Paused(a, "", t1), Paused(a, "", t2)], labels) == []
  {
    var events := [Resumed(a, "", t0), Paused(a, "", t1), Paused(a, "", t2)];
    assert NextSameApp(events, 0, 1) == 1;
    assert PairedPause(events, 0) == None;
    assert PairedPause(events, 1) == None;
    assert Pairs(events) == [];
  }

  /** RESUME(A, t0), RESUME(A, t1), PAUSE(A, t2) yields only A[t1, t2): the first RESUME is dropped. */
  lemma OrphanResumeScenario(a: string, t0: int, t1: int, t2: int, labels: map<string, string>)
    requires AcceptedDuration(t2 - t1)
    ensures ParseSessions([Resumed(a, "", t0), Resumed(a, "", t1), Paused(a, "", t2)], labels) ==
      [NewSession(a, GetAppName(labels, a), "", t1, t2)]
  {
    var events := [Resumed(a, "", t0), Resumed(a, "", t1), Paused(a, "", t2)];
    assert NextSameApp(events, 0, 1) == 1;
    assert PairedPause(events, 0) == None;
    PairedPauseSpec(events, 1, 2);
    assert Pairs(events) == [(1, 2)];
  }

  /** RESUME(A), RESUME(B), PAUSE(B), PAUSE(A) yields both sessions, A's first since
      sessions come out in RESUME order. */
  lemma InterleavedAppsScenario(a: string, b: string, t0: int, t1: int, t2: int, t3: int, labels: map<string, string>)
    requires a != b && AcceptedDuration(t3 - t0) && AcceptedDuration(t2 - t1)
    ensures ParseSessions([Resumed(a, "", t0), Resumed(b, "", t1), Paused(b, "", t2), Paused(a, "", t3)], labels) ==
      [NewSession(a, GetAppName(labels, a), "", t0, t3), NewSession(b, GetAppName(labels, b), "", t1, t2)]
  {
    var events := [Resumed(a, "", t0), Resumed(b, "", t1), Paused(b, "", t2), Paused(a, "", t3)];
    assert !StopsScan(events, 0, 1) && !StopsScan(events, 0, 2) && StopsScan(events, 0, 3);
    assert NextSameApp(events, 0, 1) == 3;
    assert NextSameApp(events, 1, 2) == 2;
    assert PairedPause(events, 0) == Some(3);
    assert PairedPause(events, 1) == Some(2);
    assert PairedPause(events, 2) == None;
    assert Pairs(events) == [(0, 3), (1, 2)];
    var sessions := ParseSessions(events, labels);
    assert sessions[0] == SessionFor(events, labels, 0, 3) && sessions[1] == SessionFor(events, labels, 1, 2);
  }

  // ---------------------------------------------------------------- summaries

  /** The distinct package names of `sessions` in order of first occurrence, the key
      order of Kotlin's `groupBy` (a `LinkedHashMap`). */
  function DistinctPackages(sessions: seq<AppSession>): (pkgs: seq<string>)
    ensures forall a, b :: 0 <= a < b < |pkgs| ==> pkgs[a] != pkgs[b]
    ensures forall s :: s in sessions ==> s.packageName in pkgs
    ensures forall p :: p in pkgs ==> exists s :: s in sessions && s.packageName == p
    decreases |sessions|
  {
    if sessions == [] then []
    else
      var init, last := sessions[..|sessions| - 1], sessions[|sessions| - 1];
      var earlier := DistinctPackages(init);
      assert sessions == init + [last];
      if last.packageName in earlier then earlier else earlier + [last.packageName]
  }

  /** Packages met earlier keep their place when more sessions follow. */
  lemma {:induction false} DistinctPackagesPrefix(sessions: seq<AppSession>, j: nat)
    requires j <= |sessions|
    ensures var pkgs := DistinctPackages(sessions);
      var earlier := DistinctPackages(sessions[..j]);
      |earlier| <= |pkgs| && pkgs[..|earlier|] == earlier
    decreases |sessions| - j
  {
    if j < |sessions| {
      DistinctPackagesPrefix(sessions, j + 1);
      var shorter, middle := sessions[..j], sessions[..j + 1];
      assert middle[..|middle| - 1] == shorter && middle[|middle| - 1] == sessions[j];
      var a, b, c := DistinctPackages(shorter), DistinctPackages(middle), DistinctPackages(sessions);
      assert b == a || b == a + [sessions[j].packageName];
      assert b[..|a|] == a;
      assert c[..|b|] == b;
      assert c[..|a|] == b[..|a|];
    } else {
      assert sessions[..j] == sessions;
    }
  }

  /** The sessions of one package, in the order of `sessions` (one group of `groupBy`). */
  function SessionsOfApp(sessions: seq<AppSession>, pkg: string): (group: seq<AppSession>)
    ensures |group| <= |sessions|
    ensures forall s :: s in group ==> s in sessions && s.packageName == pkg
    ensures forall s :: s in sessions && s.packageName == pkg ==> s in group
    decreases |sessions|
  {
    if sessions == [] then []
    else
      var init, last := sessions[..|sessions| - 1], sessions[|sessions| - 1];
      assert sessions == init + [last];
      SessionsOfApp(init, pkg) + (if last.packageName == pkg then [last] else [])
  }

  lemma SessionsOfAppAppend(sessions: seq<AppSession>, x: AppSession, pkg: string)
    ensures SessionsOfApp(sessions + [x], pkg) ==
      SessionsOfApp(sessions, pkg) + (if x.packageName == pkg then [x] else [])
  {
    assert (sessions + [x])[..|sessions|] == sessions;
  }

  lemma {:induction false} SessionsOfAppAbsent(sessions: seq<AppSession>, pkg: string)
    requires forall j :: 0 <= j < |sessions| ==> sessions[j].packageName != pkg
    ensures SessionsOfApp(sessions, pkg) == []
    decreases |sessions|
  {
    if sessions != [] {
      var init := sessions[..|sessions| - 1];
      assert forall j :: 0 <= j < |init| ==> init[j] == sessions[j];
      SessionsOfAppAbsent(init, pkg);
    }
  }

  /** The group starts with the first session of its package. */
  lemma {:induction false} SessionsOfAppHead(sessions: seq<AppSession>, pkg: string, i: nat)
    requires i < |sessions| && sessions[i].packageName == pkg
    requires forall j :: 0 <= j < i ==> sessions[j].packageName != pkg
    ensures SessionsOfApp(sessions, pkg) != [] && SessionsOfApp(sessions, pkg)[0] == sessions[i]
    decreases |sessions|
  {
    var init, last := sessions[..|sessions| - 1], sessions[|sessions| - 1];
    if i < |sessions| - 1 {
      SessionsOfAppHead(init, pkg, i);
    } else {
      assert forall j :: 0 <= j < |init| ==> init[j] == sessions[j];
      SessionsOfAppAbsent(init, pkg);
      assert sessions == init + [last];
    }
  }

  /** One entry of `createAppSummaries`: name from the group's first session, total
      and count over the group, the group itself ordered by start time. */
  function SummaryOf(sessions: seq<AppSession>, pkg: string): (summary: AppUsageSummary)
    ensures summary.packageName == pkg
    ensures summary.sessionCount == |SessionsOfApp(sessions, pkg)| == |summary.sessions|
    ensures summary.totalTimeMs == SumOf(SessionsOfApp(sessions, pkg), Duration)
  {
    var group := SessionsOfApp(sessions, pkg);
    AppUsageSummary(pkg, if group == [] then "" else group[0].appName, SumOf(group, Duration), |group|, SortBy(group, StartTime))
  }

  /** A summary lists exactly the sessions of its package, ordered by start time, and its
      total is the sum of their durations. */
  lemma SummaryOfSpec(sessions: seq<AppSession>, pkg: string)
    ensures var summary := SummaryOf(sessions, pkg);
      && multiset(summary.sessions) == multiset(SessionsOfApp(sessions, pkg))
      && SortedBy(summary.sessions, StartTime)
      && summary.totalTimeMs == SumOf(summary.sessions, Duration)
      && (forall s :: s in summary.sessions <==> s in sessions && s.packageName == pkg)
  {
    var group := SessionsOfApp(sessions, pkg);
    var sorted := SortBy(group, StartTime);
    SumOfSortBy(group, StartTime, Duration);
    assert forall s :: s in sorted <==> s in multiset(group);
  }

  /** The summary's name is the app name of the first session of its package. */
  lemma SummaryAppName(sessions: seq<AppSession>, pkg: string, i: nat)
    requires i < |sessions| && sessions[i].packageName == pkg
    requires forall j :: 0 <= j < i ==> sessions[j].packageName != pkg
    ensures SummaryOf(sessions, pkg).appName == sessions[i].appName
  {
    SessionsOfAppHead(sessions, pkg, i);
  }

  /** A summary keeps sessions that start together in the order they were listed. */
  lemma SummarySessionsStable(sessions: seq<AppSession>, pkg: string, t: int)
    ensures WithKey(SummaryOf(sessions, pkg).sessions, StartTime, t) == WithKey(SessionsOfApp(sessions, pkg), StartTime, t)
  {
    SortByStable(SessionsOfApp(sessions, pkg), StartTime, t);
  }

  function SummariesFor(sessions: seq<AppSession>, pkgs: seq<string>): (summaries: seq<AppUsageSummary>)
    ensures |summaries| == |pkgs|
    ensures forall k :: 0 <= k < |pkgs| ==> summaries[k] == SummaryOf(sessions, pkgs[k])
    decreases |pkgs|
  {
    if pkgs == [] then [] else [SummaryOf(sessions, pkgs[0])] + SummariesFor(sessions, pkgs[1..])
  }

  /** `createAppSummaries`: one summary per distinct package, in order of first occurrence. */
  function CreateAppSummaries(sessions: seq<AppSession>): (summaries: seq<AppUsageSummary>)
    ensures |summaries| == |DistinctPackages(sessions)|
    ensures sessions != [] ==> |summaries| > 0
  {
    assert sessions != [] ==> sessions[0] in sessions;
    SummariesFor(sessions, DistinctPackages(sessions))
  }

  /** Every package of the sessions has exactly one summary, which is that package's
      summary and counts at least one session. */
  lemma CreateAppSummariesSpec(sessions: seq<AppSession>)
    ensures var summaries := CreateAppSummaries(sessions);
      && (forall a, b :: 0 <= a < b < |summaries| ==> summaries[a].packageName != summaries[b].packageName)
      && (forall s :: s in sessions ==> exists k :: 0 <= k < |summaries| && summaries[k].packageName == s.packageName)
      && (forall k :: 0 <= k < |summaries| ==>
            summaries[k] == SummaryOf(sessions, summaries[k].packageName) && summaries[k].sessionCount > 0)
  {
    var pkgs := DistinctPackages(sessions);
    var summaries := SummariesFor(sessions, pkgs);
    forall s | s in sessions
      ensures exists k :: 0 <= k < |summaries| && summaries[k].packageName == s.packageName
    {
      var k :| 0 <= k < |pkgs| && pkgs[k] == s.packageName;
      assert summaries[k].packageName == s.packageName;
    }
    forall k | 0 <= k < |summaries|
      ensures summaries[k].sessionCount > 0
    {
      assert pkgs[k] in pkgs;
      var s :| s in sessions && s.packageName == pkgs[k];
      assert s in SessionsOfApp(sessions, pkgs[k]);
    }
  }

  lemma {:induction false} SummariesForEmpty(pkgs: seq<string>)
    ensures SumOf(SummariesFor([], pkgs), TotalTimeOf) == 0
    ensures SumOf(SummariesFor([], pkgs), SessionCountOf) == 0
    decreases |pkgs|
  {
    if pkgs != [] {
      SummariesForEmpty(pkgs[1..]);
    }
  }

  lemma SummaryOfAppend(sessions: seq<AppSession>, x: AppSession, pkg: string)
    ensures TotalTimeOf(SummaryOf(sessions + [x], pkg)) ==
      TotalTimeOf(SummaryOf(sessions, pkg)) + (if x.packageName == pkg then x.durationMs else 0)
    ensures SessionCountOf(SummaryOf(sessions + [x], pkg)) ==
      SessionCountOf(SummaryOf(sessions, pkg)) + (if x.packageName == pkg then 1 else 0)
  {
    var group := SessionsOfApp(sessions, pkg);
    SessionsOfAppAppend(sessions, x, pkg);
    if x.packageName == pkg {
      SumOfAppend(group, x, Duration);
      assert SessionsOfApp(sessions + [x], pkg) == group + [x];
    } else {
      assert SessionsOfApp(sessions + [x], pkg) == group;
    }
  }

  lemma SummariesForAppend(sessions: seq<AppSession>, x: AppSession, pkgs: seq<string>)
    requires forall a, b :: 0 <= a < b < |pkgs| ==> pkgs[a] != pkgs[b]
    ensures SumOf(SummariesFor(sessions + [x], pkgs), TotalTimeOf) ==
      SumOf(SummariesFor(sessions, pkgs), TotalTimeOf) + (if x.packageName in pkgs then x.durationMs else 0)
    ensures SumOf(SummariesFor(sessions + [x], pkgs), SessionCountOf) ==
      SumOf(SummariesFor(sessions, pkgs), SessionCountOf) + (if x.packageName in pkgs then 1 else 0)
  {
    var before, after := SummariesFor(sessions, pkgs), SummariesFor(sessions + [x], pkgs);
    forall k | 0 <= k < |pkgs|
      ensures TotalTimeOf(after[k]) == TotalTimeOf(before[k]) + (if pkgs[k] == x.packageName then x.durationMs else 0)
      ensures SessionCountOf(after[k]) == SessionCountOf(before[k]) + (if pkgs[k] == x.packageName then 1 else 0)
    {
      SummaryOfAppend(sessions, x, pkgs[k]);
    }
    SumOfBump(before, after, TotalTimeOf, pkgs, x.packageName, x.durationMs);
    SumOfBump(before, after, SessionCountOf, pkgs, x.packageName, 1);
  }

  /** Raising the entry of key `p` by `d`, among distinct keys, raises the sum by `d`
      when `p` is one of the keys and leaves it alone otherwise. */
  lemma {:induction false} SumOfBump<S>(before: seq<S>, after: seq<S>, f: S -> int, keys: seq<string>, p: string, d: int)
    requires |before| == |after| == |keys|
    requires forall a, b :: 0 <= a < b < |keys| ==> keys[a] != keys[b]
    requires forall k :: 0 <= k < |keys| ==> f(after[k]) == f(before[k]) + (if keys[k] == p then d else 0)
    ensures SumOf(after, f) == SumOf(before, f) + (if p in keys then d else 0)
    decreases |keys|
  {
    if keys != [] {
      var rest := keys[1..];
      DistinctTail(keys);
      forall k | 0 <= k < |rest|
        ensures f(after[1..][k]) == f(before[1..][k]) + (if rest[k] == p then d else 0)
      {
        assert after[1..][k] == after[k + 1] && before[1..][k] == before[k + 1] && rest[k] == keys[k + 1];
      }
      SumOfBump(before[1..], after[1..], f, rest, p, d);
      assert keys == [keys[0]] + rest;
      if p == keys[0] {
        assert p in keys && p !in rest;
      } else if p in rest {
        assert p in keys;
      } else {
        assert p !in keys;
      }
    }
  }

  lemma DistinctTail(pkgs: seq<string>)
    requires pkgs != [] && forall a, b :: 0 <= a < b < |pkgs| ==> pkgs[a] != pkgs[b]
    ensures forall a, b :: 0 <= a < b < |pkgs[1..]| ==> pkgs[1..][a] != pkgs[1..][b]
    ensures pkgs[0] !in pkgs[1..]
  {
    var rest := pkgs[1..];
    forall a, b | 0 <= a < b < |rest|
      ensures rest[a] != rest[b]
    {
      assert rest[a] == pkgs[a + 1] && rest[b] == pkgs[b + 1];
    }
    forall b | 0 <= b < |rest|
      ensures rest[b] != pkgs[0]
    {
      assert rest[b] == pkgs[b + 1];
    }
  }

  lemma {:induction false} SummariesForTotals(sessions: seq<AppSession>, pkgs: seq<string>)
    requires forall a, b :: 0 <= a < b < |pkgs| ==> pkgs[a] != pkgs[b]
    requires forall s :: s in sessions ==> s.packageName in pkgs
    ensures SumOf(SummariesFor(sessions, pkgs), TotalTimeOf) == SumOf(sessions, Duration)
    ensures SumOf(SummariesFor(sessions, pkgs), SessionCountOf) == |sessions|
    decreases |sessions|
  {
    if sessions == [] {
      SummariesForEmpty(pkgs);
    } else {
      var init, last := sessions[..|sessions| - 1], sessions[|sessions| - 1];
      assert sessions == init + [last];
      SummariesForTotals(init, pkgs);
      SummariesForAppend(init, last, pkgs);
      SumOfAppend(init, last, Duration);
    }
  }

  /** Grouping loses and duplicates nothing: the summaries' totals add up to the
      total over all sessions and their counts to the number of sessions. */
  lemma SummaryTotals(sessions: seq<AppSession>)
    ensures SumOf(CreateAppSummaries(sessions), TotalTimeOf) == SumOf(sessions, Duration)
    ensures SumOf(CreateAppSummaries(sessions), SessionCountOf) == |sessions|
  {
    SummariesForTotals(sessions, DistinctPackages(sessions));
  }

  // ---------------------------------------------------------------- day timeline

  function DescendingTotal(summary: AppUsageSummary): int { -summary.totalTimeMs }

  /** What `parseUsageEventsForDay` returns for the events `raw` that the usage
      source reports for the day starting at `dayStartMs`. */
  function DayTimelineOf(dayStartMs: int, raw: seq<RawEvent>, labels: map<string, string>): DayTimeline
  {
    var sessions := ParseSessions(ExtractedEvents(raw), labels);
    DayTimeline(
      dayStartMs,
      SortBy(sessions, StartTime),
      SortBy(CreateAppSummaries(sessions), DescendingTotal),
      SumOf(sessions, Duration))
  }

  /** The timeline lists the parsed sessions, which the parser already emits in start order. */
  lemma DayTimelineSessions(dayStartMs: int, raw: seq<RawEvent>, labels: map<string, string>)
    ensures var t := DayTimelineOf(dayStartMs, raw, labels);
      && t.date == dayStartMs
      && t.sessions == ParseSessions(ExtractedEvents(raw), labels)
      && SortedBy(t.sessions, StartTime)
  {
    var parsed := ParseSessions(ExtractedEvents(raw), labels);
    ParsedSessionsSorted(ExtractedEvents(raw), labels);
    SortBySorted(parsed, StartTime);
  }

  /** The timeline's summaries are those of its sessions, by descending total. */
  lemma DayTimelineSummaries(dayStartMs: int, raw: seq<RawEvent>, labels: map<string, string>)
    ensures var t := DayTimelineOf(dayStartMs, raw, labels);
      var parsed := ParseSessions(ExtractedEvents(raw), labels);
      && multiset(t.appSummaries) == multiset(CreateAppSummaries(parsed))
      && (forall a, b :: 0 <= a < b < |t.appSummaries| ==> t.appSummaries[a].totalTimeMs >= t.appSummaries[b].totalTimeMs)
      && UniqueAppsCount(t) == |DistinctPackages(parsed)|
  {
    var t := DayTimelineOf(dayStartMs, raw, labels);
    assert SortedBy(t.appSummaries, DescendingTotal);
    forall a, b | 0 <= a < b < |t.appSummaries|
      ensures t.appSummaries[a].totalTimeMs >= t.appSummaries[b].totalTimeMs
    {
      assert DescendingTotal(t.appSummaries[a]) <= DescendingTotal(t.appSummaries[b]);
    }
  }

  /** The screen time, the sum over the sessions and the sum over the summaries agree,
      and the summaries count every session once. */
  lemma DayTimelineTotals(dayStartMs: int, raw: seq<RawEvent>, labels: map<string, string>)
    ensures var t := DayTimelineOf(dayStartMs, raw, labels);
      && t.totalScreenTimeMs == SumOf(t.sessions, Duration)
      && t.totalScreenTimeMs == SumOf(t.appSummaries, TotalTimeOf)
      && SumOf(t.appSummaries, SessionCountOf) == |t.sessions|
  {
    var parsed := ParseSessions(ExtractedEvents(raw), labels);
    var summaries := CreateAppSummaries(parsed);
    SumOfSortBy(parsed, StartTime, Duration);
    SummaryTotals(parsed);
    SumOfSortBy(summaries, DescendingTotal, TotalTimeOf);
    SumOfSortBy(summaries, DescendingTotal, SessionCountOf);
  }

  /** The timeline of the day starting at `dayStartMs`, from what the usage source
      `query` reports for that day. */
  function DayTimelineFor(dayStartMs: int, query: (int, int) -> seq<RawEvent>, labels: map<string, string>): DayTimeline
  {
    DayTimelineOf(dayStartMs, query(dayStartMs, dayStartMs + DAY_MS), labels)
  }

  /** `parseUsageEventsForDay`: `query` is the usage source, asked for one day. */
  method ParseUsageEventsForDay(dayStartMs: int, query: (int, int) -> seq<RawEvent>, labels: map<string, string>)
    returns (timeline: DayTimeline)
    ensures timeline == DayTimelineFor(dayStartMs, query, labels)
    ensures timeline.date == dayStartMs
  {
    var dayEndMs := dayStartMs + DAY_MS;
    var rawEvents := ExtractRawEvents(query(dayStartMs, dayEndMs));
    var sessions := ParseEventsIntoSessions(rawEvents, dayEndMs, labels);
    var appSummaries := CreateAppSummaries(sessions);
    var totalScreenTime := SumOf(sessions, Duration);
    timeline := DayTimeline(dayStartMs, SortBy(sessions, StartTime), SortBy(appSummaries, DescendingTotal), totalScreenTime);
  }

  /** The sessions parsed from what the usage source `query` reports for [start, end). */
  function SessionsInWindow(startTimestamp: int, endTimestamp: int, query: (int, int) -> seq<RawEvent>, labels: map<string, string>): seq<AppSession>
  {
    ParseSessions(ExtractedEvents(query(startTimestamp, endTimestamp)), labels)
  }

  /** `parseUsageEventsForPeriod(startTimestamp, endTimestamp)`. */
  method ParseUsageEventsForPeriod(startTimestamp: int, endTimestamp: int, query: (int, int) -> seq<RawEvent>, labels: map<string, string>)
    returns (sessions: seq<AppSession>)
    ensures sessions == SessionsInWindow(startTimestamp, endTimestamp, query, labels)
  {
    var rawEvents := ExtractRawEvents(query(startTimestamp, endTimestamp));
    sessions := ParseEventsIntoSessions(rawEvents, endTimestamp, labels);
  }

  /** `parseUsageEventsSince`: the window runs up to the clock reading `now`. */
  method ParseUsageEventsSince(lastUpdateTimestamp: int, now: int, query: (int, int) -> seq<RawEvent>, labels: map<string, string>)
    returns (sessions: seq<AppSession>)
    ensures sessions == SessionsInWindow(lastUpdateTimestamp, now, query, labels)
  {
    sessions := ParseUsageEventsForPeriod(lastUpdateTimestamp, now, query, labels);
  }

  // ---------------------------------------------------------------- several days

  /** Day `i`'s start as the multi-day overload computes it: `i * 24 * 60 * 60 * 1000`
      is evaluated in 32-bit `Int`, each product wrapping, before it is added to the `Long`. */
  function DayStartAsWritten(startDay: int, i: int): int
  {
    startDay + Int32Wrap(Int32Wrap(Int32Wrap(Int32Wrap(i * 24) * 60) * 60) * 1000)
  }

  /** Up to day 24 the 32-bit offset is exact ... */
  lemma DayStartAsWrittenExactUpTo24(startDay: int, i: int)
    requires 0 <= i <= 24
    ensures DayStartAsWritten(startDay, i) == DayStart(startDay, i)
  {
  }

  /** ... but day 25's offset wraps: it starts 2,134,967,296 ms (about 24.7 days)
      before the first day instead of 25 days after it. */
  lemma DayStartAsWrittenWrapsAt25(startDay: int)
    ensures DayStartAsWritten(startDay, 25) == startDay - 2134967296
    ensures DayStartAsWritten(startDay, 25) != DayStart(startDay, 25)
    ensures DayStartAsWritten(startDay, 25) < DayStartAsWritten(startDay, 24)
  {
    assert Int32Wrap(25 * 24) == 600;
    assert Int32Wrap(600 * 60) == 36000;
    assert Int32Wrap(36000 * 60) == 2160000;
    assert Int32Wrap(2160000 * 1000) == -2134967296;
  }

  /** Day `i`'s start with the offset computed in `Long`, as intended. */
  function DayStart(startDay: int, i: int): (dayStart: int)
    ensures i >= 0 ==> dayStart >= startDay
    ensures i < 0 ==> dayStart < startDay
  {
    startDay + i * DAY_MS
  }

  /** `parseUsageEventsForPeriod(startDay, numberOfDays)`: one timeline per day, in day
      order, with the day offsets computed without 32-bit wrap-around. */
  method ParseUsageEventsForDays(startDay: int, numberOfDays: int, query: (int, int) -> seq<RawEvent>, labels: map<string, string>)
    returns (timelines: seq<DayTimeline>)
    ensures |timelines| == if numberOfDays > 0 then numberOfDays else 0
    ensures forall d :: 0 <= d < |timelines| ==> timelines[d] == DayTimelineFor(DayStart(startDay, d), query, labels)
    ensures forall d :: 0 <= d < |timelines| ==> timelines[d].date == startDay + d * DAY_MS
  {
    timelines := [];
    var i := 0;
    while i < numberOfDays
      invariant 0 <= i <= (if numberOfDays > 0 then numberOfDays else 0) && |timelines| == i
      invariant forall d :: 0 <= d < i ==> timelines[d] == DayTimelineFor(DayStart(startDay, d), query, labels)
      invariant forall d :: 0 <= d < i ==> timelines[d].date == startDay + d * DAY_MS
      decreases numberOfDays - i
    {
      var timeline := ParseUsageEventsForDay(DayStart(startDay, i), query, labels);
      ghost var before := timelines;
      timelines := timelines + [timeline];
      forall d | 0 <= d <= i
        ensures timelines[d] == DayTimelineFor(DayStart(startDay, d), query, labels)
      {
        if d < i {
          assert timelines[d] == before[d];
        }
      }
      i := i + 1;
    }
  }

  // ---------------------------------------------------------------- statistics

  /** `getSessionStats`. The mean is the exact mean truncated toward zero. */
  function GetSessionStats(sessions: seq<AppSession>): (stats: SessionStats)
    ensures sessions == [] ==> stats == SessionStats(0, 0, None, None, None)
    ensures sessions != [] ==> stats.totalSessions == |sessions|
    ensures sessions != [] ==>
      stats.averageSessionDuration * |sessions| + JavaRem(SumOf(sessions, Duration), |sessions|) == SumOf(sessions, Duration)
    ensures sessions != [] ==> stats.longestSession.Some? && stats.shortestSession.Some? && stats.mostUsedApp.Some?
  {
    if sessions == [] then SessionStats(0, 0, None, None, None)
    else
      var summaries := CreateAppSummaries(sessions);
      SessionStats(
        |sessions|,
        JavaDiv(SumOf(sessions, Duration), |sessions|),
        Some(sessions[FirstMaxIndex(sessions, Duration)]),
        Some(sessions[FirstMinIndex(sessions, Duration)]),
        Some(summaries[FirstMaxIndex(summaries, TotalTimeOf)]))
  }

  /** The longest session is the first one of greatest duration. */
  lemma LongestSessionIsFirstMax(sessions: seq<AppSession>)
    requires sessions != []
    ensures exists k :: IsFirstMax(sessions, Duration, k) && GetSessionStats(sessions).longestSession == Some(sessions[k])
  {
    var k := FirstMaxIndex(sessions, Duration);
    assert IsFirstMax(sessions, Duration, k);
  }

  /** The shortest session is the first one of least duration. */
  lemma ShortestSessionIsFirstMin(sessions: seq<AppSession>)
    requires sessions != []
    ensures exists k :: IsFirstMin(sessions, Duration, k) && GetSessionStats(sessions).shortestSession == Some(sessions[k])
  {
    var k := FirstMinIndex(sessions, Duration);
    assert IsFirstMin(sessions, Duration, k);
  }

  /** The most used app is the first summary of greatest total. */
  lemma MostUsedAppIsFirstMax(sessions: seq<AppSession>)
    requires sessions != []
    ensures var summaries := CreateAppSummaries(sessions);
      exists k :: IsFirstMax(summaries, TotalTimeOf, k) && GetSessionStats(sessions).mostUsedApp == Some(summaries[k])
  {
    var summaries := CreateAppSummaries(sessions);
    var k := FirstMaxIndex(summaries, TotalTimeOf);
    assert IsFirstMax(summaries, TotalTimeOf, k);
  }

  /** There is only one first maximum, so the longest session and the most used app are determined. */
  lemma FirstMaxUnique<T>(s: seq<T>, key: T -> int, k1: int, k2: int)
    requires IsFirstMax(s, key, k1) && IsFirstMax(s, key, k2)
    ensures k1 == k2
  {
    assert key(s[k1]) == key(s[k2]);
  }
}
