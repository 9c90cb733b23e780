/** The home-screen widget's refresh: today's time per top-level category, shown as a
    total (hours and minutes), a stacked bar and the three largest categories. The
    category list arrives as (name, milliseconds) pairs, largest first; fetching and
    parsing it, the clock and the bitmap's pixel geometry are not part of this model. */
module CategoryTimeWidgetWorker {
  import opened Text
  import opened Sorting
  import opened SessionModels

  /** The widget layout's view ids (`R.id.*`); row `k` of the top-category list is 0, 1 or 2. */
  datatype ViewId = WidgetHours | WidgetMinutes | WidgetBarChart | WidgetTimestamp
                  | AppRow(k: nat) | AppName(k: nat) | AppTime(k: nat)

  /** `CATEGORY_COLORS`: three category colours, then the grey of "others" and of the empty bar. */
  const CATEGORY_COLORS: seq<string> := ["#00BFA5", "#7986CB", "#42A5F5", "#424242"]
  const GREY: nat := 3

  /** One entry of the category list: a top-level category and its time today (ms). */
  type CategoryTime = (string, int)

  function Millis(c: CategoryTime): int { c.1 }

  /** `totalSeconds / 3600` and `(totalSeconds % 3600) / 60` with `totalSeconds = millis / 1000`,
      in JVM `Long` arithmetic (division truncates toward zero). */
  function HoursAndMinutes(millis: int): (hm: (int, int))
  {
    var totalSeconds := JavaDiv(millis, 1000);
    (JavaDiv(totalSeconds, 3600), JavaDiv(JavaRem(totalSeconds, 3600), 60))
  }

  /** For a non-negative time, the hours and minutes are the whole hours and the whole
      minutes of the rest: minutes are 0..59 and the two recompose the time to the minute. */
  lemma HoursAndMinutesSpec(millis: int)
    ensures var (h, m) := HoursAndMinutes(millis);
      && (millis >= 0 ==> h >= 0 && 0 <= m < 60 && (h * 3600 + m * 60) * 1000 <= millis < (h * 3600 + m * 60 + 60) * 1000)
      && (millis < 0 ==> h <= 0 && -60 < m <= 0)
  {
    var s := JavaDiv(millis, 1000);
    if millis >= 0 {
      assert s * 1000 <= millis < s * 1000 + 1000;
      var h, r := s / 3600, s % 3600;
      assert s == h * 3600 + r && 0 <= r < 3600;
      assert JavaRem(s, 3600) == r;
      var m := r / 60;
      assert m * 60 <= r < m * 60 + 60;
    } else {
      assert s <= 0;
      assert JavaRem(s, 3600) <= 0;
    }
  }

  /** `formatDurationShort`: "{h} h {m} m" from one hour on, "{m} m" from one minute on, "<1 m" below. */
  function FormatDurationShort(millis: int): (text: string)
  {
    var (hours, minutes) := HoursAndMinutes(millis);
    if hours > 0 then IntToString(hours) + " h " + IntToString(minutes) + " m"
    else if minutes > 0 then IntToString(minutes) + " m"
    else "<1 m"
  }

  /** Which form `formatDurationShort` takes is decided by the time alone: "<1 m" exactly
      below one minute (negative times included), the hour form exactly from one hour on. */
  lemma FormatDurationShortSpec(millis: int)
    ensures var (h, m) := HoursAndMinutes(millis);
      && (millis < 60000 <==> FormatDurationShort(millis) == "<1 m")
      && (millis >= 3600000 ==> FormatDurationShort(millis) == IntToString(h) + " h " + IntToString(m) + " m")
      && (60000 <= millis < 3600000 ==> h == 0 && FormatDurationShort(millis) == IntToString(m) + " m")
  {
    HoursAndMinutesSpec(millis);
    var (h, m) := HoursAndMinutes(millis);
    if millis >= 60000 {
      assert h > 0 || m > 0;
      if h > 0 {
        assert (IntToString(h) + " h " + IntToString(m) + " m")[|IntToString(h)|] == ' ';
      } else {
        assert (IntToString(m) + " m")[|IntToString(m)|] == ' ';
      }
      assert "<1 m"[0] == '<';
      assert h > 0 ==> (IntToString(h) + " h " + IntToString(m) + " m")[0] != '<';
      assert h <= 0 ==> (IntToString(m) + " m")[0] != '<';
    }
  }

  /** How a bar segment is drawn: rounded at both ends, only at the left, only at the right, or square. */
  datatype Shape = Full | LeftRounded | RightRounded | Square

  predicate RoundedLeft(shape: Shape) { shape == Full || shape == LeftRounded }

  predicate RoundedRight(shape: Shape) { shape == Full || shape == RightRounded }

  /** One segment of the stacked bar: its colour, the time it stands for and its shape. */
  datatype BarSegment = BarSegment(colorIndex: nat, millis: int, shape: Shape)

  /** The bitmap: a single grey bar, or segments drawn left to right. */
  datatype BarChart = EmptyBar | Stacked(segments: seq<BarSegment>)

  function SegmentMillis(s: BarSegment): int { s.millis }

  /** The branch chosen for a segment from `isFirst` and `isLast`. */
  function SegmentShape(isFirst: bool, isLast: bool): Shape
  {
    if isFirst && isLast then Full
    else if isFirst then LeftRounded
    else if isLast then RightRounded
    else Square
  }

  function TopCount(n: nat): nat { if n < 3 then n else 3 }

  /** The segments of the first `top` entries, the last one closing the bar unless an
      "others" segment follows. */
  function TopSegments(categoryData: seq<CategoryTime>, top: nat, othersTotal: int): (segments: seq<BarSegment>)
    requires top <= |categoryData|
  {
    seq(top, i requires 0 <= i < top =>
      BarSegment(i, categoryData[i].1, SegmentShape(i == 0, i == top - 1 && othersTotal <= 0)))
  }

  /** The bar `createBarChartBitmap` draws for the category list and its total. */
  function BarChartOf(categoryData: seq<CategoryTime>, totalMillis: int): BarChart
  {
    if totalMillis == 0 || categoryData == [] then EmptyBar
    else
      var top := TopCount(|categoryData|);
      var othersTotal := totalMillis - SumOf(categoryData[..top], Millis);
      Stacked(TopSegments(categoryData, top, othersTotal) +
              if othersTotal > 0 then [BarSegment(GREY, othersTotal, RightRounded)] else [])
  }

  lemma TopSegmentsSum(categoryData: seq<CategoryTime>, top: nat, othersTotal: int)
    requires top <= |categoryData|
    ensures SumOf(TopSegments(categoryData, top, othersTotal), SegmentMillis) == SumOf(categoryData[..top], Millis)
  {
    SumOfSameValues(TopSegments(categoryData, top, othersTotal), categoryData[..top], SegmentMillis, Millis);
  }

  /** `createBarChartBitmap` with the canvas reduced to the list of segments it paints;
      the loop over the top three entries is the one that advances `currentX`. */
  method CreateBarChartBitmap(categoryData: seq<CategoryTime>, totalMillis: int) returns (chart: BarChart)
    ensures chart == BarChartOf(categoryData, totalMillis)
  {
    if totalMillis == 0 || |categoryData| == 0 {
      return EmptyBar;
    }
    var top3 := categoryData[..TopCount(|categoryData|)];
    var top3Total := SumOf(top3, Millis);
    var othersTotal := totalMillis - top3Total;
    var segments: seq<BarSegment> := [];
    for i := 0 to |top3|
      invariant |segments| == i
      invariant forall k :: 0 <= k < i ==>
        segments[k] == BarSegment(k, top3[k].1, SegmentShape(k == 0, k == |top3| - 1 && othersTotal <= 0))
    {
      var isFirst := i == 0;
      var isLast := i == |top3| - 1 && othersTotal <= 0;
      segments := segments + [BarSegment(i, top3[i].1, SegmentShape(isFirst, isLast))];
    }
    if othersTotal > 0 {
      segments := segments + [BarSegment(GREY, othersTotal, RightRounded)];
    }
    return Stacked(segments);
  }

  /** The grey bar is drawn exactly when there is no time or no category; otherwise one
      segment per top entry, in list order and in the first three colours, then the grey
      "others" segment exactly when the rest of the total is positive. */
  lemma BarChartSegmentsSpec(categoryData: seq<CategoryTime>, totalMillis: int)
    ensures BarChartOf(categoryData, totalMillis) == EmptyBar <==> totalMillis == 0 || categoryData == []
    ensures BarChartOf(categoryData, totalMillis).Stacked? ==>
      var segments := BarChartOf(categoryData, totalMillis).segments;
      var top := TopCount(|categoryData|);
      var othersTotal := totalMillis - SumOf(categoryData[..top], Millis);
      && |segments| == top + (if othersTotal > 0 then 1 else 0)
      && (forall i :: 0 <= i < top ==> segments[i].colorIndex == i && segments[i].millis == categoryData[i].1)
      && (othersTotal > 0 ==> segments[top] == BarSegment(GREY, othersTotal, RightRounded))
  {
  }

  /** The bar's outer ends are rounded and every joint between segments is square:
      only the first segment is rounded on the left, only the last on the right. */
  lemma BarChartRoundedEnds(categoryData: seq<CategoryTime>, totalMillis: int)
    requires BarChartOf(categoryData, totalMillis).Stacked?
    ensures var segments := BarChartOf(categoryData, totalMillis).segments;
      |segments| > 0 &&
      forall i :: 0 <= i < |segments| ==>
        (RoundedLeft(segments[i].shape) <==> i == 0) && (RoundedRight(segments[i].shape) <==> i == |segments| - 1)
  {
    var segments := BarChartOf(categoryData, totalMillis).segments;
    var top := TopCount(|categoryData|);
    var othersTotal := totalMillis - SumOf(categoryData[..top], Millis);
    forall i | 0 <= i < |segments|
      ensures (RoundedLeft(segments[i].shape) <==> i == 0) && (RoundedRight(segments[i].shape) <==> i == |segments| - 1)
    {
      if i < top {
        assert segments[i].shape == SegmentShape(i == 0, i == top - 1 && othersTotal <= 0);
      }
    }
  }

  /** When the total is the sum of the list (as in `updateSingleWidget`) and no entry is
      negative, the segments stand for the whole total: "others" is the rest of the list. */
  lemma {:induction false} BarChartCoversTotal(categoryData: seq<CategoryTime>)
    requires forall i :: 0 <= i < |categoryData| ==> categoryData[i].1 >= 0
    requires categoryData != [] && SumOf(categoryData, Millis) != 0
    ensures BarChartOf(categoryData, SumOf(categoryData, Millis)).Stacked?
    ensures SumOf(BarChartOf(categoryData, SumOf(categoryData, Millis)).segments, SegmentMillis) == SumOf(categoryData, Millis)
  {
    var total := SumOf(categoryData, Millis);
    var top := TopCount(|categoryData|);
    var head, rest := categoryData[..top], categoryData[top..];
    assert categoryData == head + rest;
    SumOfConcat(head, rest, Millis);
    SumOfNonNegative(rest, Millis);
    var othersTotal := total - SumOf(head, Millis);
    var topSegments := TopSegments(categoryData, top, othersTotal);
    TopSegmentsSum(categoryData, top, othersTotal);
    if othersTotal > 0 {
      SumOfAppend(topSegments, BarSegment(GREY, othersTotal, RightRounded), SegmentMillis);
    } else {
      assert topSegments + [] == topSegments;
    }
  }

  lemma {:induction false} SumOfConcat<T>(a: seq<T>, b: seq<T>, f: T -> int)
    ensures SumOf(a + b, f) == SumOf(a, f) + SumOf(b, f)
    decreases |a|
  {
    if a == [] {
      assert a + b == b;
    } else {
      assert (a + b)[1..] == a[1..] + b;
      SumOfConcat(a[1..], b, f);
    }
  }

  lemma {:induction false} SumOfNonNegative<T>(s: seq<T>, f: T -> int)
    requires forall i :: 0 <= i < |s| ==> f(s[i]) >= 0
    ensures SumOf(s, f) >= 0
    decreases |s|
  {
    if s != [] {
      assert forall i :: 0 <= i < |s[1..]| ==> s[1..][i] == s[i + 1];
      SumOfNonNegative(s[1..], f);
    }
  }

  lemma {:induction false} SumOfSameValues<T, U>(s: seq<T>, t: seq<U>, f: T -> int, g: U -> int)
    requires |s| == |t|
    requires forall i :: 0 <= i < |s| ==> f(s[i]) == g(t[i])
    ensures SumOf(s, f) == SumOf(t, g)
    decreases |s|
  {
    if s != [] {
      assert forall i :: 0 <= i < |s[1..]| ==> s[1..][i] == s[i + 1] && t[1..][i] == t[i + 1];
      SumOfSameValues(s[1..], t[1..], f, g);
    }
  }

  /** The widget's views as `RemoteViews` records them: texts, visibilities and bitmaps by view id. */
  class RemoteViews {
    var texts: map<ViewId, string>
    var visible: map<ViewId, bool>
    var bitmaps: map<ViewId, BarChart>

    constructor()
      ensures texts == map[] && visible == map[] && bitmaps == map[]
    {
      texts := map[];
      visible := map[];
      bitmaps := map[];
    }

    method SetTextViewText(viewId: ViewId, text: string)
      modifies this
      ensures texts == old(texts)[viewId := text]
      ensures visible == old(visible) && bitmaps == old(bitmaps)
    {
      texts := texts[viewId := text];
    }

    method SetViewVisibility(viewId: ViewId, isVisible: bool)
      modifies this
      ensures visible == old(visible)[viewId := isVisible]
      ensures texts == old(texts) && bitmaps == old(bitmaps)
    {
      visible := visible[viewId := isVisible];
    }

    method SetImageViewBitmap(viewId: ViewId, chart: BarChart)
      modifies this
      ensures bitmaps == old(bitmaps)[viewId := chart]
      ensures texts == old(texts) && visible == old(visible)
    {
      bitmaps := bitmaps[viewId := chart];
    }
  }

  /** `texts` after the rows of the first `n` view slots are filled in, slot by slot:
      a slot with a category gets its name and its short duration, the others nothing. */
  function WithAppTexts(texts: map<ViewId, string>, data: seq<CategoryTime>, n: nat): map<ViewId, string>
    requires n <= 3
  {
    if n == 0 then texts
    else
      var m := WithAppTexts(texts, data, n - 1);
      if n - 1 < |data| then m[AppName(n - 1) := data[n - 1].0][AppTime(n - 1) := FormatDurationShort(data[n - 1].1)]
      else m
  }

  /** The row visibilities of the first `n` slots: shown exactly when a category fills the slot. */
  function AppRowVisibility(data: seq<CategoryTime>, n: nat): map<ViewId, bool>
    requires n <= 3
  {
    if n == 0 then map[] else AppRowVisibility(data, n - 1)[AppRow(n - 1) := n - 1 < |data|]
  }

  /** The views a refresh leaves behind. */
  datatype WidgetViews = WidgetViews(texts: map<ViewId, string>, visible: map<ViewId, bool>, bitmaps: map<ViewId, BarChart>)

  /** What `updateSingleWidget` sets: the zero total alone when fetching failed; otherwise the
      total, the bar of the list against its own sum, the top three rows and the timestamp. */
  function WidgetFor(categoryData: Option<seq<CategoryTime>>, timestamp: string): WidgetViews
  {
    if categoryData.None? then WidgetViews(map[WidgetHours := "0", WidgetMinutes := "0"], map[], map[])
    else
      var data := categoryData.value;
      var totalMillis := SumOf(data, Millis);
      var (hours, minutes) := HoursAndMinutes(totalMillis);
      var header := map[WidgetHours := IntToString(hours), WidgetMinutes := IntToString(minutes)];
      WidgetViews(WithAppTexts(header, data, 3)[WidgetTimestamp := timestamp],
                  AppRowVisibility(data, 3),
                  map[WidgetBarChart := BarChartOf(data, totalMillis)])
  }

  lemma {:induction false} WithAppTextsSpec(texts: map<ViewId, string>, data: seq<CategoryTime>, n: nat)
    requires n <= 3
    requires forall k :: 0 <= k < 3 ==> AppName(k) !in texts && AppTime(k) !in texts
    ensures forall key :: key in texts ==> key in WithAppTexts(texts, data, n) && WithAppTexts(texts, data, n)[key] == texts[key]
    ensures forall k :: 0 <= k < n && k < |data| ==>
      AppName(k) in WithAppTexts(texts, data, n) && WithAppTexts(texts, data, n)[AppName(k)] == data[k].0 &&
      AppTime(k) in WithAppTexts(texts, data, n) && WithAppTexts(texts, data, n)[AppTime(k)] == FormatDurationShort(data[k].1)
    ensures forall k :: 0 <= k < 3 && (n <= k || |data| <= k) ==>
      AppName(k) !in WithAppTexts(texts, data, n) && AppTime(k) !in WithAppTexts(texts, data, n)
  {
    if n > 0 {
      WithAppTextsSpec(texts, data, n - 1);
      var m := WithAppTexts(texts, data, n - 1);
      if n - 1 < |data| {
        var r := m[AppName(n - 1) := data[n - 1].0][AppTime(n - 1) := FormatDurationShort(data[n - 1].1)];
        assert WithAppTexts(texts, data, n) == r;
        forall k | 0 <= k < 3 && (n <= k || |data| <= k)
          ensures AppName(k) !in r && AppTime(k) !in r
        {
          assert AppName(k) != AppName(n - 1) && AppTime(k) != AppTime(n - 1);
        }
      }
    }
  }

  lemma {:induction false} AppRowVisibilitySpec(data: seq<CategoryTime>, n: nat)
    requires n <= 3
    ensures AppRowVisibility(data, n).Keys == (set k | 0 <= k < n :: AppRow(k))
    ensures forall k :: 0 <= k < n ==> (AppRowVisibility(data, n)[AppRow(k)] <==> k < |data|)
  {
    if n > 0 {
      AppRowVisibilitySpec(data, n - 1);
    }
  }

  /** A refresh with data shows the total of the list, its bar, the timestamp, and for each
      of the three rows: visible with the category's name and time exactly when the list
      reaches that row, hidden with no text otherwise. */
  lemma WidgetForSpec(data: seq<CategoryTime>, timestamp: string)
    ensures var w := WidgetFor(Some(data), timestamp);
      var totalMillis := SumOf(data, Millis);
      var (hours, minutes) := HoursAndMinutes(totalMillis);
      && WidgetHours in w.texts && w.texts[WidgetHours] == IntToString(hours)
      && WidgetMinutes in w.texts && w.texts[WidgetMinutes] == IntToString(minutes)
      && WidgetTimestamp in w.texts && w.texts[WidgetTimestamp] == timestamp
      && w.bitmaps == map[WidgetBarChart := BarChartOf(data, totalMillis)]
      && w.visible.Keys == (set i | 0 <= i < 3 :: AppRow(i))
      && (forall i :: 0 <= i < 3 ==> (w.visible[AppRow(i)] <==> i < |data|))
      && (forall i :: 0 <= i < 3 && i < |data| ==>
            AppName(i) in w.texts && w.texts[AppName(i)] == data[i].0 &&
            AppTime(i) in w.texts && w.texts[AppTime(i)] == FormatDurationShort(data[i].1))
      && (forall i :: 0 <= i < 3 && |data| <= i ==> AppName(i) !in w.texts && AppTime(i) !in w.texts)
  {
    var (hours, minutes) := HoursAndMinutes(SumOf(data, Millis));
    var header := map[WidgetHours := IntToString(hours), WidgetMinutes := IntToString(minutes)];
    WithAppTextsSpec(header, data, 3);
    AppRowVisibilitySpec(data, 3);
  }

  /** `updateSingleWidget`. `categoryData` is today's category list, or None when
      fetching it threw; `timestamp` is the formatted clock reading. */
  method UpdateSingleWidget(categoryData: Option<seq<CategoryTime>>, timestamp: string) returns (views: RemoteViews)
    ensures fresh(views)
    ensures WidgetViews(views.texts, views.visible, views.bitmaps) == WidgetFor(categoryData, timestamp)
  {
    views := new RemoteViews();
    if categoryData.None? {
      views.SetTextViewText(WidgetHours, "0");
      views.SetTextViewText(WidgetMinutes, "0");
      return;
    }
    var data := categoryData.value;
    var totalMillis := SumOf(data, Millis);
    var (hours, minutes) := HoursAndMinutes(totalMillis);
    views.SetTextViewText(WidgetHours, IntToString(hours));
    views.SetTextViewText(WidgetMinutes, IntToString(minutes));
    var chart := CreateBarChartBitmap(data, totalMillis);
    views.SetImageViewBitmap(WidgetBarChart, chart);
    ghost var header := views.texts;
    var topApps := data[..TopCount(|data|)];
    for i := 0 to 3
      invariant views.texts == WithAppTexts(header, data, i)
      invariant views.visible == AppRowVisibility(data, i)
      invariant views.bitmaps == map[WidgetBarChart := chart]
    {
      if i < |topApps| {
        var (name, duration) := topApps[i];
        views.SetTextViewText(AppName(i), name);
        views.SetTextViewText(AppTime(i), FormatDurationShort(duration));
        views.SetViewVisibility(AppRow(i), true);
      } else {
        views.SetViewVisibility(AppRow(i), false);
      }
    }
    views.SetTextViewText(WidgetTimestamp, timestamp);
  }
}
