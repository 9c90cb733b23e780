/** The accessibility service that follows the URL shown by a browser and sends one
    heartbeat to the local store for every page visit once the next visit begins.
    The platform pieces are inputs: the accessibility event with its node tree, the
    texts the platform finds by view id, and the clock reading `now` (ms). */
module WebWatcher {
  import opened SessionModels

  const WEB_BUCKET_ID: string := "aw-watcher-android-web"
  const WEB_BUCKET_TYPE: string := "web.tab.current"
  const SYSTEM_UI_PACKAGE: string := "com.android.systemui"
  const WEB_VIEW_CLASS: string := "android.webkit.WebView"

  const CHROME: string := "com.android.chrome"
  const FIREFOX: string := "org.mozilla.firefox"
  const SAMSUNG_BROWSER: string := "com.sec.android.app.sbrowser"
  const OPERA: string := "com.opera.browser"
  const EDGE: string := "com.microsoft.emmx"

  /** `s.removePrefix(prefix)`: drops one leading occurrence of `prefix`, if there is one. */
  function RemovePrefix(s: string, prefix: string): (r: string)
    ensures |prefix| <= |s| && s[..|prefix|] == prefix ==> prefix + r == s
    ensures !(|prefix| <= |s| && s[..|prefix|] == prefix) ==> r == s
  {
    if |prefix| <= |s| && s[..|prefix|] == prefix then s[|prefix|..] else s
  }

  /** `stripProtocol`: first one leading "http://", then one leading "https://". */
  function StripProtocol(url: string): string
  {
    RemovePrefix(RemovePrefix(url, "http://"), "https://")
  }

  predicate StartsWith(s: string, prefix: string)
  {
    |prefix| <= |s| && s[..|prefix|] == prefix
  }

  /** What `stripProtocol` removes: nothing from a URL without a scheme prefix, exactly
      the scheme from "http://" and "https://" URLs, and both prefixes, in that order,
      from a URL that starts with "http://https://". The result is always a suffix. */
  lemma StripProtocolSpec(url: string, rest: string)
    ensures !StartsWith(url, "http://") && !StartsWith(url, "https://") ==> StripProtocol(url) == url
    ensures !StartsWith(rest, "https://") ==> StripProtocol("http://" + rest) == rest
    ensures StripProtocol("https://" + rest) == rest
    ensures StripProtocol("http://https://" + rest) == rest
    ensures |StripProtocol(url)| <= |url| && url[|url| - |StripProtocol(url)|..] == StripProtocol(url)
  {
    assert ("http://" + rest)[..7] == "http://";
    assert ("http://" + rest)[7..] == rest;
    assert ("https://" + rest)[..8] == "https://";
    assert ("https://" + rest)[8..] == rest;
    assert ("https://" + rest)[..7] != "http://" by {
      assert ("https://" + rest)[4] == 's';
    }
    assert "http://https://" + rest == "http://" + ("https://" + rest);
    var once := RemovePrefix(url, "http://");
    assert url[|url| - |once|..] == once;
    assert once[|once| - |StripProtocol(url)|..] == StripProtocol(url);
  }

  /** One node of the accessibility tree below an event's source; `children` are the
      children the platform returns (null children are already dropped). */
  datatype NodeInfo = NodeInfo(className: string, text: Option<string>, children: seq<NodeInfo>)

  /** The node `findWebView` looks for: a web view that carries a text. */
  predicate IsTitledWebView(node: NodeInfo)
  {
    node.className == WEB_VIEW_CLASS && node.text.Some?
  }

  /** The nodes of the tree in pre-order: a node, then each child's subtree in turn. */
  function Nodes(node: NodeInfo): seq<NodeInfo>
    decreases node, |node.children| + 1
  {
    [node] + NodesFrom(node, 0)
  }

  function NodesFrom(node: NodeInfo, i: nat): seq<NodeInfo>
    requires i <= |node.children|
    decreases node, |node.children| - i
  {
    if i == |node.children| then [] else Nodes(node.children[i]) + NodesFrom(node, i + 1)
  }

  /** The first titled web view of a node list. */
  function FirstTitled(nodes: seq<NodeInfo>): (r: Option<NodeInfo>)
    ensures r.None? <==> forall k :: 0 <= k < |nodes| ==> !IsTitledWebView(nodes[k])
    ensures r.Some? ==>
      exists k :: 0 <= k < |nodes| && nodes[k] == r.value && IsTitledWebView(r.value) &&
        (forall j :: 0 <= j < k ==> !IsTitledWebView(nodes[j]))
    decreases |nodes|
  {
    if nodes == [] then None
    else if IsTitledWebView(nodes[0]) then Some(nodes[0])
    else
      var r := FirstTitled(nodes[1..]);
      assert forall k :: 0 < k < |nodes| ==> nodes[k] == nodes[1..][k - 1];
      r
  }

  lemma FirstTitledAppend(a: seq<NodeInfo>, b: seq<NodeInfo>)
    ensures FirstTitled(a + b) == if FirstTitled(a).Some? then FirstTitled(a) else FirstTitled(b)
    decreases |a|
  {
    if a != [] {
      assert (a + b)[1..] == a[1..] + b;
      FirstTitledAppend(a[1..], b);
    } else {
      assert a + b == b;
    }
  }

  /** `findWebView`: the node itself when it is a titled web view, else the first
      result among its children, searched one after the other. */
  function FindWebView(node: NodeInfo): (found: Option<NodeInfo>)
    ensures found.Some? ==> IsTitledWebView(found.value)
    decreases node, |node.children| + 1
  {
    if IsTitledWebView(node) then Some(node) else FindInChildren(node, 0)
  }

  function FindInChildren(node: NodeInfo, i: nat): (found: Option<NodeInfo>)
    requires i <= |node.children|
    ensures found.Some? ==> IsTitledWebView(found.value)
    decreases node, |node.children| - i
  {
    if i == |node.children| then None
    else
      var found := FindWebView(node.children[i]);
      if found.Some? then found else FindInChildren(node, i + 1)
  }

  /** `findWebView` is a pre-order search: it returns the first titled web view of the
      tree, and nothing exactly when the tree holds none. */
  lemma {:induction false} FindWebViewIsFirstInPreorder(node: NodeInfo)
    ensures FindWebView(node) == FirstTitled(Nodes(node))
    decreases node, |node.children| + 1
  {
    FirstTitledAppend([node], NodesFrom(node, 0));
    FindInChildrenIsFirst(node, 0);
  }

  lemma {:induction false} FindInChildrenIsFirst(node: NodeInfo, i: nat)
    requires i <= |node.children|
    ensures FindInChildren(node, i) == FirstTitled(NodesFrom(node, i))
    decreases node, |node.children| - i
  {
    if i < |node.children| {
      FindWebViewIsFirstInPreorder(node.children[i]);
      FindInChildrenIsFirst(node, i + 1);
      FirstTitledAppend(Nodes(node.children[i]), NodesFrom(node, i + 1));
    }
  }

  /** An accessibility event: the package it comes from (null for some browsers), the
      window it concerns, its source node (null when the platform gives none) and, for
      each view id, the text of the first node the platform finds under the source by
      that id (ids without such a text are absent). */
  datatype AccessibilityEvent = AccessibilityEvent(
    packageName: Option<string>,
    windowId: int,
    source: Option<NodeInfo>,
    viewTexts: map<string, string>)

  /** `extractTextByViewId`, with the optional `stripProtocol` transformer. */
  function ExtractTextByViewId(event: AccessibilityEvent, viewId: string, stripProtocol: bool): (text: Option<string>)
    ensures text.Some? <==> event.source.Some? && viewId in event.viewTexts
  {
    if event.source.Some? && viewId in event.viewTexts then
      Some(if stripProtocol then StripProtocol(event.viewTexts[viewId]) else event.viewTexts[viewId])
    else None
  }

  /** Kotlin's elvis operator on nullable values. */
  function Elvis(first: Option<string>, second: Option<string>): Option<string>
  {
    if first.Some? then first else second
  }

  /** The packages `urlExtractors` has an entry for. */
  predicate HasExtractor(packageName: string)
  {
    packageName in {CHROME, FIREFOX, SAMSUNG_BROWSER, OPERA, EDGE}
  }

  /** `urlExtractors[packageName](event)`: each browser's URL view ids, tried in order. */
  function ExtractUrl(packageName: string, event: AccessibilityEvent): Option<string>
    requires HasExtractor(packageName)
  {
    if packageName == CHROME then
      ExtractTextByViewId(event, "com.android.chrome:id/url_bar", false)
    else if packageName == FIREFOX then
      Elvis(ExtractTextByViewId(event, "org.mozilla.firefox:id/url_bar_title", false),
            ExtractTextByViewId(event, "org.mozilla.firefox:id/mozac_browser_toolbar_url_view", false))
    else if packageName == SAMSUNG_BROWSER then
      Elvis(ExtractTextByViewId(event, "com.sec.android.app.sbrowser:id/location_bar_edit_text", false),
            ExtractTextByViewId(event, "com.sec.android.app.sbrowser:id/custom_tab_toolbar_url_bar_text", true))
    else if packageName == OPERA then
      Elvis(ExtractTextByViewId(event, "com.opera.browser:id/url_field", false),
            ExtractTextByViewId(event, "com.opera.browser:id/address_field", false))
    else
      ExtractTextByViewId(event, "com.microsoft.emmx:id/url_bar", false)
  }

  /** The extractors read nothing without a source; a browser's first view id wins over
      its fallback; Samsung Internet's custom-tab fallback loses its scheme. */
  lemma ExtractUrlSpec(packageName: string, event: AccessibilityEvent)
    requires HasExtractor(packageName)
    ensures event.source.None? ==> ExtractUrl(packageName, event).None?
    ensures packageName == FIREFOX && "org.mozilla.firefox:id/url_bar_title" in event.viewTexts && event.source.Some? ==>
      ExtractUrl(packageName, event) == Some(event.viewTexts["org.mozilla.firefox:id/url_bar_title"])
    ensures packageName == FIREFOX && "org.mozilla.firefox:id/url_bar_title" !in event.viewTexts ==>
      ExtractUrl(packageName, event) == ExtractTextByViewId(event, "org.mozilla.firefox:id/mozac_browser_toolbar_url_view", false)
    ensures (packageName == SAMSUNG_BROWSER && event.source.Some? &&
             "com.sec.android.app.sbrowser:id/location_bar_edit_text" !in event.viewTexts &&
             "com.sec.android.app.sbrowser:id/custom_tab_toolbar_url_bar_text" in event.viewTexts) ==>
      ExtractUrl(packageName, event) == Some(StripProtocol(event.viewTexts["com.sec.android.app.sbrowser:id/custom_tab_toolbar_url_bar_text"]))
  {
  }

  /** The JSON data of a browser heartbeat; `audible` and `incognito` are always false. */
  datatype BrowserEventData = BrowserEventData(url: string, browser: string, title: string, audible: bool, incognito: bool)

  /** A `heartbeatHelper` call: bucket, start instant (ms), duration in whole seconds,
      data and pulse time in seconds. */
  datatype Heartbeat = Heartbeat(bucketId: string, timestamp: int, durationSeconds: int, data: BrowserEventData, pulsetime: real)

  /** `Duration.between(start, now).seconds`: whole seconds, rounded toward negative infinity. */
  function WholeSecondsBetween(start: int, now: int): (seconds: int)
    ensures seconds * 1000 <= now - start < seconds * 1000 + 1000
  {
    (now - start) / 1000
  }

  /** `logBrowserEvent`'s heartbeat for a visit of `url` in `browser` that started at `start`. */
  function BrowserHeartbeat(url: string, browser: string, windowTitle: string, start: int, now: int): (hb: Heartbeat)
    ensures hb.bucketId == WEB_BUCKET_ID && hb.timestamp == start && hb.pulsetime == 1.0
    ensures hb.data == BrowserEventData(url, browser, windowTitle, false, false)
    ensures hb.durationSeconds == WholeSecondsBetween(start, now)
  {
    Heartbeat(WEB_BUCKET_ID, start, WholeSecondsBetween(start, now), BrowserEventData(url, browser, windowTitle, false, false), 1.0)
  }

  /** The watcher's fields: when the current visit began, its URL, browser and page
      title, and the window of the last event. */
  datatype WatchState = WatchState(
    urlTimestamp: Option<int>,
    url: Option<string>,
    browser: Option<string>,
    windowTitle: Option<string>,
    windowId: Option<int>)

  /** `lastUrlTimestamp!!` cannot fail: a visit with a URL or a browser has a start. */
  predicate StateValid(s: WatchState)
  {
    (s.url.Some? || s.browser.Some?) ==> s.urlTimestamp.Some?
  }

  const INITIAL: WatchState := WatchState(None, None, None, None, None)

  /** The (url, browser) pair differs from the current visit's. */
  predicate PairChanges(s: WatchState, newUrl: Option<string>, newBrowser: Option<string>)
  {
    newUrl != s.url || newBrowser != s.browser
  }

  /** The state after `handleUrl(newUrl, newBrowser)` at clock reading `now`. */
  function AfterUrl(s: WatchState, newUrl: Option<string>, newBrowser: Option<string>, now: int): WatchState
  {
    if PairChanges(s, newUrl, newBrowser) then s.(urlTimestamp := Some(now), url := newUrl, browser := newBrowser, windowTitle := None)
    else s
  }

  /** What `handleUrl(newUrl, newBrowser)` sends: the visit that ends, when it had both
      a URL and a browser, titled with its last title or "". */
  function UrlHeartbeats(s: WatchState, newUrl: Option<string>, newBrowser: Option<string>, now: int): seq<Heartbeat>
    requires StateValid(s)
  {
    if PairChanges(s, newUrl, newBrowser) && s.url.Some? && s.browser.Some? then
      [BrowserHeartbeat(s.url.value, s.browser.value, if s.windowTitle.Some? then s.windowTitle.value else "", s.urlTimestamp.value, now)]
    else []
  }

  /** `handleUrl`: a change of the (url, browser) pair closes the current visit (sending
      it when it had both parts) and opens a new one at `now` with no title yet; the
      same pair changes nothing and sends nothing. */
  lemma HandleUrlSpec(s: WatchState, newUrl: Option<string>, newBrowser: Option<string>, now: int)
    requires StateValid(s)
    ensures StateValid(AfterUrl(s, newUrl, newBrowser, now))
    ensures !PairChanges(s, newUrl, newBrowser) ==>
      AfterUrl(s, newUrl, newBrowser, now) == s && UrlHeartbeats(s, newUrl, newBrowser, now) == []
    ensures PairChanges(s, newUrl, newBrowser) ==>
      var r := AfterUrl(s, newUrl, newBrowser, now);
      r.url == newUrl && r.browser == newBrowser && r.windowTitle.None? && r.urlTimestamp == Some(now) && r.windowId == s.windowId
    ensures |UrlHeartbeats(s, newUrl, newBrowser, now)| == 1 <==> PairChanges(s, newUrl, newBrowser) && s.url.Some? && s.browser.Some?
    ensures |UrlHeartbeats(s, newUrl, newBrowser, now)| <= 1
    ensures UrlHeartbeats(s, newUrl, newBrowser, now) != [] ==>
      var hb := UrlHeartbeats(s, newUrl, newBrowser, now)[0];
      hb.data.url == s.url.value && hb.data.browser == s.browser.value &&
      (s.windowTitle.None? ==> hb.data.title == "") && (s.windowTitle.Some? ==> hb.data.title == s.windowTitle.value) &&
      hb.timestamp == s.urlTimestamp.value && hb.pulsetime == 1.0 &&
      hb.durationSeconds * 1000 <= now - hb.timestamp < hb.durationSeconds * 1000 + 1000
  {
  }

  /** Repeating a `handleUrl` call, at any later clock reading, changes nothing and sends nothing. */
  lemma HandleUrlIdempotent(s: WatchState, newUrl: Option<string>, newBrowser: Option<string>, now: int, later: int)
    requires StateValid(s)
    ensures var r := AfterUrl(s, newUrl, newBrowser, now);
      StateValid(r) && AfterUrl(r, newUrl, newBrowser, later) == r && UrlHeartbeats(r, newUrl, newBrowser, later) == []
  {
  }

  /** The state after `handleWindowTitle(newWindowTitle)`. */
  function AfterTitle(s: WatchState, newWindowTitle: string): WatchState
  {
    if Some(newWindowTitle) != s.windowTitle then s.(windowTitle := Some(newWindowTitle)) else s
  }

  /** `handleWindowTitle` records the title of the current visit and nothing else; a
      second call with the same title changes nothing. */
  lemma HandleWindowTitleSpec(s: WatchState, title: string)
    ensures AfterTitle(s, title) == s.(windowTitle := Some(title))
    ensures AfterTitle(AfterTitle(s, title), title) == AfterTitle(s, title)
    ensures StateValid(s) ==> StateValid(AfterTitle(s, title))
  {
  }

  predicate ShouldIgnoreEvent(event: AccessibilityEvent)
  {
    event.packageName == Some(SYSTEM_UI_PACKAGE)
  }

  predicate WindowChanged(s: WatchState, windowId: int)
  {
    s.windowId != Some(windowId)
  }

  /** The URL an event reports, when its package has an extractor and it has a source. */
  function EventUrl(event: AccessibilityEvent): Option<string>
  {
    if event.packageName.Some? && HasExtractor(event.packageName.value) && event.source.Some? then
      ExtractUrl(event.packageName.value, event)
    else None
  }

  /** The page title an event reports: the text of its source's first titled web view. */
  function EventTitle(event: AccessibilityEvent): Option<string>
  {
    if event.source.Some? then
      var view := FindWebView(event.source.value);
      if view.Some? then view.value.text else None
    else None
  }

  /** The state after `onAccessibilityEvent(event)` at clock reading `now`. */
  function AfterEvent(s: WatchState, event: AccessibilityEvent, now: int): WatchState
  {
    if ShouldIgnoreEvent(event) then s
    else
      var moved := s.(windowId := Some(event.windowId));
      if event.packageName.None? || !HasExtractor(event.packageName.value) then
        if WindowChanged(s, event.windowId) then AfterUrl(moved, None, None, now) else moved
      else if event.source.None? then moved
      else
        var visited := if EventUrl(event).Some? then AfterUrl(moved, EventUrl(event), event.packageName, now) else moved;
        if EventTitle(event).Some? then AfterTitle(visited, EventTitle(event).value) else visited
  }

  /** The heartbeats `onAccessibilityEvent(event)` sends at clock reading `now`. */
  function EventHeartbeats(s: WatchState, event: AccessibilityEvent, now: int): seq<Heartbeat>
    requires StateValid(s)
  {
    if ShouldIgnoreEvent(event) then []
    else
      var moved := s.(windowId := Some(event.windowId));
      if event.packageName.None? || !HasExtractor(event.packageName.value) then
        if WindowChanged(s, event.windowId) then UrlHeartbeats(moved, None, None, now) else []
      else if event.source.None? || EventUrl(event).None? then []
      else UrlHeartbeats(moved, EventUrl(event), event.packageName, now)
  }

  /** System UI events leave every field alone and send nothing. */
  lemma IgnoredEventChangesNothing(s: WatchState, event: AccessibilityEvent, now: int)
    requires StateValid(s)
    requires event.packageName == Some(SYSTEM_UI_PACKAGE)
    ensures AfterEvent(s, event, now) == s && EventHeartbeats(s, event, now) == []
  {
  }

  /** A package without an extractor only records its window; when the window changed,
      the current visit ends (and is sent) with no URL and no browser after it. */
  lemma NonBrowserEventSpec(s: WatchState, event: AccessibilityEvent, now: int)
    requires StateValid(s)
    requires !ShouldIgnoreEvent(event)
    requires event.packageName.None? || !HasExtractor(event.packageName.value)
    ensures !WindowChanged(s, event.windowId) ==> AfterEvent(s, event, now) == s && EventHeartbeats(s, event, now) == []
    ensures WindowChanged(s, event.windowId) ==>
      var r := AfterEvent(s, event, now);
      r.windowId == Some(event.windowId) && r.url.None? && r.browser.None? &&
      (s.url.Some? && s.browser.Some? <==> EventHeartbeats(s, event, now) != [])
  {
  }

  /** A browser event with a URL makes that URL, in that browser, the current visit; a
      page title found in the same event is then recorded for it. */
  lemma BrowserEventSpec(s: WatchState, event: AccessibilityEvent, now: int)
    requires StateValid(s)
    requires event.packageName.Some? && HasExtractor(event.packageName.value) && !ShouldIgnoreEvent(event)
    requires EventUrl(event).Some?
    ensures var r := AfterEvent(s, event, now);
      r.url == EventUrl(event) && r.browser == event.packageName && r.windowId == Some(event.windowId) &&
      (EventTitle(event).Some? ==> r.windowTitle == EventTitle(event)) &&
      (EventTitle(event).None? && PairChanges(s, EventUrl(event), event.packageName) ==> r.windowTitle.None?)
    ensures StateValid(AfterEvent(s, event, now))
  {
  }

  /** Every event keeps `lastUrlTimestamp!!` safe. */
  lemma AfterEventValid(s: WatchState, event: AccessibilityEvent, now: int)
    requires StateValid(s)
    ensures StateValid(AfterEvent(s, event, now))
  {
  }

  class WebWatcher {
    var lastUrlTimestamp: Option<int>
    var lastUrl: Option<string>
    var lastBrowser: Option<string>
    var lastWindowTitle: Option<string>
    var lastWindowId: Option<int>
    /** The store's buckets, by id, with their type. */
    var buckets: map<string, string>
    /** The heartbeats sent to the store, oldest first. */
    var heartbeats: seq<Heartbeat>

    function State(): WatchState
      reads this
    {
      WatchState(lastUrlTimestamp, lastUrl, lastBrowser, lastWindowTitle, lastWindowId)
    }

    predicate Valid()
      reads this
    {
      StateValid(State())
    }

    constructor(storeBuckets: map<string, string>)
      ensures State() == INITIAL && Valid()
      ensures buckets == storeBuckets && heartbeats == []
    {
      lastUrlTimestamp := None;
      lastUrl := None;
      lastBrowser := None;
      lastWindowTitle := None;
      lastWindowId := None;
      buckets := storeBuckets;
      heartbeats := [];
    }

    /** `onCreate`: creates the web bucket when the store does not know it. */
    method OnCreate()
      modifies this
      ensures buckets == if WEB_BUCKET_ID in old(buckets) then old(buckets) else old(buckets)[WEB_BUCKET_ID := WEB_BUCKET_TYPE]
      ensures State() == old(State()) && heartbeats == old(heartbeats)
    {
      if WEB_BUCKET_ID !in buckets {
        buckets := buckets[WEB_BUCKET_ID := WEB_BUCKET_TYPE];
      }
    }

    /** `logBrowserEvent`: one heartbeat for the visit that started at `start`. */
    method LogBrowserEvent(url: string, browser: string, windowTitle: string, start: int, now: int)
      modifies this
      ensures heartbeats == old(heartbeats) + [BrowserHeartbeat(url, browser, windowTitle, start, now)]
      ensures State() == old(State()) && buckets == old(buckets)
    {
      var duration := (now - start) / 1000;
      var data := BrowserEventData(url, browser, windowTitle, false, false);
      heartbeats := heartbeats + [Heartbeat(WEB_BUCKET_ID, start, duration, data, 1.0)];
    }

    method HandleUrl(newUrl: Option<string>, newBrowser: Option<string>, now: int)
      requires Valid()
      modifies this
      ensures Valid()
      ensures State() == AfterUrl(old(State()), newUrl, newBrowser, now)
      ensures heartbeats == old(heartbeats) + UrlHeartbeats(old(State()), newUrl, newBrowser, now)
      ensures buckets == old(buckets)
    {
      if newUrl != lastUrl || newBrowser != lastBrowser {
        if lastUrl.Some? && lastBrowser.Some? {
          var windowTitle := if lastWindowTitle.Some? then lastWindowTitle.value else "";
          LogBrowserEvent(lastUrl.value, lastBrowser.value, windowTitle, lastUrlTimestamp.value, now);
        }
        lastUrlTimestamp := Some(now);
        lastUrl := newUrl;
        lastBrowser := newBrowser;
        lastWindowTitle := None;
      }
    }

    method HandleWindowTitle(newWindowTitle: string)
      modifies this
      ensures State() == AfterTitle(old(State()), newWindowTitle)
      ensures heartbeats == old(heartbeats) && buckets == old(buckets)
    {
      if Some(newWindowTitle) != lastWindowTitle {
        lastWindowTitle := Some(newWindowTitle);
      }
    }

    /** `onAccessibilityEvent`, at clock reading `now`. */
    method OnAccessibilityEvent(event: AccessibilityEvent, now: int)
      requires Valid()
      modifies this
      ensures Valid()
      ensures State() == AfterEvent(old(State()), event, now)
      ensures heartbeats == old(heartbeats) + EventHeartbeats(old(State()), event, now)
      ensures buckets == old(buckets)
    {
      if ShouldIgnoreEvent(event) {
        return;
      }
      var packageName := event.packageName;
      var windowChanged := WindowChanged(State(), event.windowId);
      lastWindowId := Some(event.windowId);
      if packageName.None? || !HasExtractor(packageName.value) {
        if windowChanged {
          HandleUrl(None, None, now);
        }
        return;
      }
      if event.source.Some? {
        var newUrl := ExtractUrl(packageName.value, event);
        if newUrl.Some? {
          HandleUrl(newUrl, packageName, now);
        }
        var webView := FindWebView(event.source.value);
        if webView.Some? {
          HandleWindowTitle(webView.value.text.value);
        }
      }
    }
  }
}
