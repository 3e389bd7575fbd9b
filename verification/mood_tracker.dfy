/** The mood tracker view: the signed-in user's mood entries inside the
    selected period, newest first, their average, the colour of each bar,
    the seven-bar chart window and the insight text under it. */
module MoodTracker {
  import opened Base
  import opened Storage

  /** Direction of the mood over the period, as the view last computed it. */
  datatype Trend = Up | Down | Stable

  /** What the view shows: the entries, the average mood and the trend. */
  datatype MoodView = MoodView(data: seq<MoodEntry>, average: real, trend: Trend)

  /** The state before the first load: no data, average 0, stable. */
  function Initial(): MoodView
  {
    MoodView([], 0.0, Stable)
  }

  function MoodDate(e: MoodEntry): int
  {
    e.date
  }

  function MoodValue(e: MoodEntry): int
  {
    e.mood
  }

  function IsOwnEntry(email: string): MoodEntry -> bool
  {
    (e: MoodEntry) => e.userId == email
  }

  function InPeriod(periodStart: int, today: int): MoodEntry -> bool
  {
    (e: MoodEntry) => periodStart <= e.date <= today
  }

  /** The entries the view lists: the user's own, sorted newest first, then
      restricted to the dates from `periodStart` to `today` inclusive. */
  function PeriodEntries(all: seq<MoodEntry>, email: string, periodStart: int, today: int): (r: seq<MoodEntry>)
    ensures SortedDesc(r, MoodDate)
    ensures forall e ::
      multiset(r)[e] == (if e.userId == email && periodStart <= e.date <= today then multiset(all)[e] else 0)
  {
    var own := Filter(all, IsOwnEntry(email));
    var sorted := SortDesc(own, MoodDate);
    var r := Filter(sorted, InPeriod(periodStart, today));
    FilterSortedDesc(sorted, InPeriod(periodStart, today), MoodDate);
    forall e ensures multiset(r)[e] ==
      (if e.userId == email && periodStart <= e.date <= today then multiset(all)[e] else 0) {
      FilterCount(sorted, InPeriod(periodStart, today), e);
      FilterCount(all, IsOwnEntry(email), e);
    }
    r
  }

  /** The mount effect, re-run whenever the period changes. Without a signed-in
      user the view redirects. Otherwise it shows the period's entries; the
      average (the exact mean) and the trend are recomputed only when there
      is at least one entry, and otherwise keep their previous values. The
      trend of a non-empty list is supplied as `trend`. */
  function Load(v: MoodView, store: Store, periodStart: int, today: int, trend: Trend): (r: Guarded<MoodView>)
    ensures r.Redirected? <==> store.currentUser.None?
    ensures r.Shown? ==> r.value.data == PeriodEntries(store.moodHistory, store.currentUser.value.email, periodStart, today)
    ensures r.Shown? && r.value.data != [] ==>
      && r.value.average == Mean(r.value.data, MoodValue)
      && MinOf(r.value.data, MoodValue) as real <= r.value.average <= MaxOf(r.value.data, MoodValue) as real
      && r.value.trend == trend
    ensures r.Shown? && r.value.data == [] ==> r.value.average == v.average && r.value.trend == v.trend
  {
    match store.currentUser
    case None => Redirected
    case Some(u) =>
      var data := PeriodEntries(store.moodHistory, u.email, periodStart, today);
      if data == [] then Shown(v.(data := data))
      else Shown(MoodView(data, Mean(data, MoodValue), trend))
  }

  /** On the first load of a period with no entries the average reads 0. */
  lemma FirstLoadWithoutEntries(store: Store, periodStart: int, today: int, trend: Trend)
    requires store.currentUser.Some?
    requires forall i :: 0 <= i < |store.moodHistory| ==> store.moodHistory[i].userId != store.currentUser.value.email
    ensures Load(Initial(), store, periodStart, today, trend) == Shown(MoodView([], 0.0, Stable))
  {
    var data := Load(Initial(), store, periodStart, today, trend).value.data;
    forall e ensures multiset(data)[e] == 0 {
      if e in store.moodHistory {
        var i :| 0 <= i < |store.moodHistory| && store.moodHistory[i] == e;
      }
    }
    assert multiset(data) == multiset{};
    assert |data| == |multiset(data)|;
  }

  /* ---------------------------------------------------------------------- */
  /* getMoodColor and the legend                                             */

  datatype MoodColor = Red | Orange | Green

  /** The legend's bands: Low (1-3), Medium (4-7), High (8-10); no band for
      values off the 1-10 scale. */
  function LegendBand(mood: int): (r: Option<MoodColor>)
    ensures r.Some? <==> 1 <= mood <= 10
  {
    if 1 <= mood <= 3 then Some(Red)
    else if 4 <= mood <= 7 then Some(Orange)
    else if 8 <= mood <= 10 then Some(Green)
    else None
  }

  /** `getMoodColor`: the bar colour of a mood value. A mood on the 1-10 scale
      gets its legend band's colour; values below the scale are red and values
      above it green. */
  function ColorOf(mood: int): (r: MoodColor)
    ensures LegendBand(mood).Some? ==> r == LegendBand(mood).value
    ensures mood < 1 ==> r == Red
    ensures mood > 10 ==> r == Green
  {
    if mood <= 3 then Red else if mood <= 7 then Orange else Green
  }

  /* ---------------------------------------------------------------------- */
  /* The chart window                                                        */

  const BarCount := 7

  /** `moodData.slice(0, 7).reverse()`: the bars, left to right. */
  function Bars(data: seq<MoodEntry>): (r: seq<MoodEntry>)
    ensures |r| == if |data| < BarCount then |data| else BarCount
    ensures forall i :: 0 <= i < |r| ==> r[i] == data[|r| - 1 - i]
  {
    Reverse(Take(data, BarCount))
  }

  /** On a newest-first list the bars run oldest to newest, and no entry left
      off the chart is newer than one drawn on it. */
  lemma BarsAreNewestOldestFirst(data: seq<MoodEntry>)
    requires SortedDesc(data, MoodDate)
    ensures var r := Bars(data);
      && (forall i, j :: 0 <= i < j < |r| ==> r[i].date <= r[j].date)
      && (forall k, i :: |r| <= k < |data| && 0 <= i < |r| ==> data[k].date <= r[i].date)
  {
    var r := Bars(data);
    forall i, j | 0 <= i < j < |r| ensures r[i].date <= r[j].date {
      assert MoodDate(data[|r| - 1 - j]) >= MoodDate(data[|r| - 1 - i]);
    }
    forall k, i | |r| <= k < |data| && 0 <= i < |r| ensures data[k].date <= r[i].date {
      assert MoodDate(data[|r| - 1 - i]) >= MoodDate(data[k]);
    }
  }

  /* ---------------------------------------------------------------------- */
  /* getAIMoodComment                                                        */

  const StartTracking := "Start tracking your mood to get personalized insights!"
  const Improving := "Your mood has been improving! Keep up the positive momentum ^_^"
  const FeelingDown := "I notice you've been feeling down lately. Remember to take care of yourself ♥"
  const StableMood := "Your mood has been stable. Keep up the good work!"

  function TrendComment(t: Trend): string
  {
    match t
    case Up => Improving
    case Down => FeelingDown
    case Stable => StableMood
  }

  /** `getAIMoodComment`: the insight under the chart. */
  function Comment(data: seq<MoodEntry>, trend: Trend): (r: string)
    ensures data == [] ==> r == StartTracking
    ensures data != [] ==> r == TrendComment(trend)
  {
    if data == [] then StartTracking else TrendComment(trend)
  }

  /** The invitation to start tracking appears exactly when there is no data,
      and with data each trend has its own text. */
  lemma CommentCases(data: seq<MoodEntry>, t1: Trend, t2: Trend)
    ensures Comment(data, t1) == StartTracking <==> data == []
    ensures data == [] ==> Comment(data, t1) == Comment(data, t2)
    ensures data != [] && t1 != t2 ==> Comment(data, t1) != Comment(data, t2)
  {
    assert |StartTracking| == 54 && |Improving| == 63 && |FeelingDown| == 77 && |StableMood| == 49;
  }
}
