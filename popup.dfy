/** The popup (src/popup.js): the relative-time label of an activity and
    the list of recent activities it renders. The HTML strings are not
    modelled; an item is its (title, time) pair. */
module Popup {
  import opened Wrappers
  import opened Seqs

  const Minute: int := 60000
  const Hour: int := 3600000
  const Day: int := 86400000
  /** Thirty days: from here on the popup shows an absolute date. */
  const Month: int := 2592000000

  /** How many activities the popup lists. */
  const ShownCount: nat := 10
  const UnknownTitle: string := "Unknown"

  /** An activity's `timestamp` as the popup reads it: missing, a number of
      milliseconds, or an ISO date string (denoting its milliseconds). Only
      a missing value and the number 0 are falsy. */
  datatype TimeValue = Undefined | Millis(ms: int) | IsoString(ms: int) {
    predicate Falsy() {
      Undefined? || (Millis? && ms == 0)
    }
  }

  /** The result of `formatTime`: "unknown", "just now", "N m ago",
      "N h ago", "N d ago", or the locale date of the timestamp. */
  datatype TimeLabel =
    | UnknownTime
    | JustNow
    | MinutesAgo(n: int)
    | HoursAgo(n: int)
    | DaysAgo(n: int)
    | AbsoluteDate(ms: int)

  /** `formatTime(timestamp)` read at clock time `now`. Dafny's `/` with a
      positive divisor rounds down, as `Math.floor(diff / k)` does. */
  function FormatTime(timestamp: TimeValue, now: int): (r: TimeLabel)
    ensures r.UnknownTime? <==> timestamp.Falsy()
    ensures !timestamp.Falsy() ==> (r.JustNow? <==> now - timestamp.ms < Minute)
    ensures !timestamp.Falsy() ==> (r.MinutesAgo? <==> Minute <= now - timestamp.ms < Hour)
    ensures !timestamp.Falsy() ==> (r.HoursAgo? <==> Hour <= now - timestamp.ms < Day)
    ensures !timestamp.Falsy() ==> (r.DaysAgo? <==> Day <= now - timestamp.ms < Month)
    ensures !timestamp.Falsy() ==> (r.AbsoluteDate? <==> Month <= now - timestamp.ms)
    ensures r.MinutesAgo? ==> 1 <= r.n <= 59 && r.n * Minute <= now - timestamp.ms < r.n * Minute + Minute
    ensures r.HoursAgo? ==> 1 <= r.n <= 23 && r.n * Hour <= now - timestamp.ms < r.n * Hour + Hour
    ensures r.DaysAgo? ==> 1 <= r.n <= 29 && r.n * Day <= now - timestamp.ms < r.n * Day + Day
    ensures r.AbsoluteDate? ==> r.ms == timestamp.ms
  {
    if timestamp.Falsy() then UnknownTime
    else
      var diff := now - timestamp.ms;
      var minutes, hours, days := diff / Minute, diff / Hour, diff / Day;
      if minutes < 1 then JustNow
      else if minutes < 60 then MinutesAgo(minutes)
      else if hours < 24 then HoursAgo(hours)
      else if days < 30 then DaysAgo(days)
      else AbsoluteDate(timestamp.ms)
  }

  /** The boundaries fall into the later bucket. */
  lemma BucketBoundaries(t: int)
    requires t != 0
    ensures FormatTime(Millis(t), t + Minute - 1) == JustNow
    ensures FormatTime(Millis(t), t + Minute) == MinutesAgo(1)
    ensures FormatTime(Millis(t), t + Hour) == HoursAgo(1)
    ensures FormatTime(Millis(t), t + Day) == DaysAgo(1)
    ensures FormatTime(Millis(t), t + Month - 1) == DaysAgo(29)
    ensures FormatTime(Millis(t), t + Month) == AbsoluteDate(t)
  {
  }

  /** A stored activity as the popup reads it: its `title` key (None when
      absent) and its `timestamp`. */
  datatype StoredActivity = StoredActivity(title: Option<string>, timestamp: TimeValue)

  /** One rendered list item. */
  datatype Item = Item(title: string, time: TimeLabel)

  /** `activity.title || 'Unknown'`. */
  function TitleOf(a: StoredActivity): (t: string)
    ensures t == UnknownTitle <==> a.title.None? || a.title.value in {"", UnknownTitle}
    ensures t != UnknownTitle ==> a.title == Some(t)
  {
    if a.title.Some? && a.title.value != "" then a.title.value else UnknownTitle
  }

  /** One list item: the activity's title with its fallback, and its
      relative time. */
  function ItemOf(a: StoredActivity, now: int): (item: Item)
    ensures item.title == UnknownTitle <==> a.title.None? || a.title.value in {"", UnknownTitle}
    ensures item.title != UnknownTitle ==> a.title == Some(item.title)
    ensures item.time == FormatTime(a.timestamp, now)
    // Corollaries of the clause above and `FormatTime`'s contract:
    ensures item.time.UnknownTime? <==> a.timestamp.Falsy()
    ensures !a.timestamp.Falsy() && now - a.timestamp.ms < Minute ==> item.time == JustNow
  {
    Item(TitleOf(a), FormatTime(a.timestamp, now))
  }

  /** `activities.slice(-ShownCount).reverse()`: the last entries of the
      stored order, last first. */
  function SelectRecent<T>(activities: seq<T>): (r: seq<T>)
    ensures |r| == if |activities| < ShownCount then |activities| else ShownCount
    ensures forall i :: 0 <= i < |r| ==> r[i] == activities[|activities| - 1 - i]
  {
    var tail := TakeLast(activities, ShownCount);
    assert forall i :: 0 <= i < |tail| ==> Reverse(tail)[i] == activities[|activities| - 1 - i];
    Reverse(tail)
  }

  /** What `loadRecentActivities` puts in the list. */
  datatype ActivityList = EmptyState | Items(items: seq<Item>)

  /** `loadRecentActivities` on the stored log (missing counts as empty). */
  function RecentActivitiesView(stored: Option<seq<StoredActivity>>, now: int): (v: ActivityList)
    ensures v.EmptyState? <==> stored.GetOr([]) == []
    ensures v.Items? ==>
              var acts := stored.GetOr([]);
              |v.items| == (if |acts| < ShownCount then |acts| else ShownCount) &&
              forall i :: 0 <= i < |v.items| ==> v.items[i] == ItemOf(acts[|acts| - 1 - i], now)
  {
    var activities := stored.GetOr([]);
    if |activities| == 0 then EmptyState
    else
      var shown := SelectRecent(activities);
      Items(seq(|shown|, i requires 0 <= i < |shown| => ItemOf(shown[i], now)))
  }
}
