/**
 * The in-memory part of the dashboard handlers: the conversion rate, the
 * recent-activity list, the per-type breakdown of a user's activities, the
 * most active day, and the daily series of the trends endpoint. Rows come in
 * already fetched and filtered; timestamps are whole seconds since the epoch
 * and a calendar date is the day number `ts / 86400` (UTC).
 */
module Dashboard {
  import opened Wrappers
  import opened Http
  import opened Tally

  /** A `user_activities` row. */
  datatype Activity = Activity(id: nat, userId: nat, activityType: string, data: Option<string>,
                               ipAddress: Option<string>, userAgent: Option<string>, createdAt: int)

  const SecondsPerDay: int := 86400

  /** `created_at.date()`, as a day number (floor division, also before the epoch). */
  function DayOf(ts: int): (d: int)
    ensures d * SecondsPerDay <= ts < (d + 1) * SecondsPerDay
  {
    ts / SecondsPerDay
  }

  // ---------------------------------------------------------------- conversion

  /** The share of active users among all users, in percent; 0 when there are no users. */
  function ConversionRate(activeUsers: nat, totalUsers: nat): (rate: real)
    ensures totalUsers == 0 ==> rate == 0.0
    ensures totalUsers > 0 ==> rate * totalUsers as real == activeUsers as real * 100.0
  {
    if totalUsers > 0 then activeUsers as real / totalUsers as real * 100.0 else 0.0
  }

  /** The rate is a percentage when the active users are among the counted users. */
  lemma ConversionRateIsPercentage(activeUsers: nat, totalUsers: nat)
    requires activeUsers <= totalUsers
    ensures 0.0 <= ConversionRate(activeUsers, totalUsers) <= 100.0
    ensures totalUsers > 0 && activeUsers == totalUsers ==> ConversionRate(activeUsers, totalUsers) == 100.0
  {
    if totalUsers > 0 {
      var rate := ConversionRate(activeUsers, totalUsers);
      assert rate * totalUsers as real <= totalUsers as real * 100.0;
      assert rate * totalUsers as real >= 0.0;
      if activeUsers == totalUsers {
        assert (rate - 100.0) * totalUsers as real == 0.0;
      }
    }
  }

  // ----------------------------------------------------------- recent activity

  /** One item of `recent_activities`: the row without its client details. */
  datatype ActivityEntry = ActivityEntry(id: nat, userId: nat, activityType: string, data: Option<string>, createdAt: int)

  function EntryOf(a: Activity): ActivityEntry {
    ActivityEntry(a.id, a.userId, a.activityType, a.data, a.createdAt)
  }

  const RecentLimit: nat := 10

  /**
   * The recent-activity list built from the rows the query returned newest
   * first: the first ten of them, each with its id, user, type, data and time.
   */
  method RecentActivities(rows: seq<Activity>) returns (list: seq<ActivityEntry>)
    ensures |list| == if |rows| < RecentLimit then |rows| else RecentLimit
    ensures forall i :: 0 <= i < |list| ==> list[i] == EntryOf(rows[i])
    ensures (forall i, j :: 0 <= i < j < |rows| ==> rows[i].createdAt >= rows[j].createdAt) ==>
              forall i, j :: 0 <= i < j < |list| ==> list[i].createdAt >= list[j].createdAt
  {
    var n := if |rows| < RecentLimit then |rows| else RecentLimit;
    list := [];
    for i := 0 to n
      invariant |list| == i
      invariant forall k :: 0 <= k < i ==> list[k] == EntryOf(rows[k])
    {
      list := list + [EntryOf(rows[i])];
    }
  }

  // ------------------------------------------------------------------ breakdown

  /** The activity types of `acts`, in row order. */
  function TypesOf(acts: seq<Activity>): (ts: seq<string>)
    ensures |ts| == |acts|
    ensures forall i :: 0 <= i < |acts| ==> ts[i] == acts[i].activityType
  {
    seq(|acts|, i requires 0 <= i < |acts| => acts[i].activityType)
  }

  /** `activity_stats`: a dict from activity type to the number of activities of that type. */
  method ActivityBreakdown(acts: seq<Activity>) returns (stats: map<string, nat>)
    ensures stats == Counts(TypesOf(acts))
  {
    var types := TypesOf(acts);
    stats := map[];
    for i := 0 to |acts|
      invariant stats == Counts(types[..i])
    {
      var activityType := types[i];
      CountsStep(types, i);
      stats := stats[activityType := (if activityType in stats then stats[activityType] else 0) + 1];
    }
    assert types[..|acts|] == types;
  }

  /** The sum of `m[k]` over the keys `ks`. */
  function SumOver(m: map<string, nat>, ks: seq<string>): nat
    requires forall k :: k in ks ==> k in m
  {
    if ks == [] then 0 else SumOver(m, ks[..|ks| - 1]) + m[ks[|ks| - 1]]
  }

  lemma {:induction false} SumOverCounts(ks: seq<string>, xs: seq<string>)
    requires forall k :: k in ks ==> k in xs
    ensures (forall k :: k in ks ==> k in Counts(xs)) && SumOver(Counts(xs), ks) == SumOfOccurrences(ks, xs)
  {
    CountsMeaning(xs);
    if ks != [] {
      SumOverCounts(ks[..|ks| - 1], xs);
    }
  }

  /**
   * The breakdown has one key per distinct activity type, each holding the
   * number of activities of that type, and the counts add up to
   * `total_activities`, the number of activities.
   */
  lemma BreakdownAddsUp(acts: seq<Activity>)
    ensures var stats := Counts(TypesOf(acts));
            (forall t :: t in stats <==> exists i :: 0 <= i < |acts| && acts[i].activityType == t) &&
            (forall t :: t in stats ==> stats[t] == Occurrences(TypesOf(acts), t)) &&
            (forall t :: t in Distinct(TypesOf(acts)) <==> t in stats) &&
            SumOver(stats, Distinct(TypesOf(acts))) == |acts|
  {
    var types := TypesOf(acts);
    var stats := Counts(types);
    CountsMeaning(types);
    DistinctMeaning(types);
    forall t | t in stats
      ensures exists i :: 0 <= i < |acts| && acts[i].activityType == t
    {
      var i :| 0 <= i < |types| && types[i] == t;
    }
    SumOverCounts(Distinct(types), types);
    CountsAddUp(types);
  }

  // ---------------------------------------------------------- most active day

  /** The days of the activities, in row order. */
  function DaysOf(acts: seq<Activity>): (ds: seq<int>)
    ensures |ds| == |acts|
    ensures forall i :: 0 <= i < |acts| ==> ds[i] == DayOf(acts[i].createdAt)
  {
    seq(|acts|, i requires 0 <= i < |acts| => DayOf(acts[i].createdAt))
  }

  /** The values of `m` at `ks`, in the order of `ks`: `[v for _, v in d.items()]`. */
  function ValuesAt(m: map<int, nat>, ks: seq<int>): (vs: seq<nat>)
    requires forall i :: 0 <= i < |ks| ==> ks[i] in m
    ensures |vs| == |ks|
    ensures forall i :: 0 <= i < |ks| ==> vs[i] == m[ks[i]]
  {
    if ks == [] then [] else ValuesAt(m, ks[..|ks| - 1]) + [m[ks[|ks| - 1]]]
  }

  /** The day whose dict item `max` picks: the first day, in key order, holding the largest count. */
  function BusiestDay(ds: seq<int>): (day: Option<int>)
    ensures day.None? <==> ds == []
  {
    if ds == [] then None
    else
      var keys := Distinct(ds);
      CountsMeaning(ds);
      DistinctMeaning(ds);
      Some(keys[FirstMaxIndex(ValuesAt(Counts(ds), keys))])
  }

  /** `get_most_active_day`: fills `day_counts` one activity at a time, then takes the first maximum. */
  method MostActiveDay(acts: seq<Activity>) returns (day: Option<int>)
    ensures day == BusiestDay(DaysOf(acts))
    ensures day.None? <==> acts == []
  {
    if acts == [] {
      return None;
    }
    var days := DaysOf(acts);
    var dayCounts: map<int, nat> := map[];
    var keyOrder: seq<int> := [];  // the insertion order of the keys of `day_counts`
    for i := 0 to |acts|
      invariant dayCounts == Counts(days[..i])
      invariant keyOrder == Distinct(days[..i])
    {
      var d := days[i];
      CountsStep(days, i);
      if d !in keyOrder {
        keyOrder := keyOrder + [d];
      }
      dayCounts := dayCounts[d := if d in dayCounts then dayCounts[d] + 1 else 1];
    }
    assert days[..|acts|] == days;
    CountsMeaning(days);
    DistinctMeaning(days);
    var best := FirstMaxIndex(ValuesAt(dayCounts, keyOrder));
    day := Some(keyOrder[best]);
  }

  /**
   * The most active day is a day of some activity, no day has more
   * activities, and of the days that have as many it is the one met first.
   */
  lemma BusiestDayIsFirstMaximum(ds: seq<int>)
    requires ds != []
    ensures var day := BusiestDay(ds).value;
            day in ds &&
            (forall e :: e in ds ==> Occurrences(ds, e) <= Occurrences(ds, day)) &&
            (forall e :: e in ds && Occurrences(ds, e) == Occurrences(ds, day) ==> FirstIndex(ds, day) <= FirstIndex(ds, e))
  {
    var keys := Distinct(ds);
    var counts := Counts(ds);
    CountsMeaning(ds);
    DistinctMeaning(ds);
    var vals := ValuesAt(counts, keys);
    var best := FirstMaxIndex(vals);
    var day := keys[best];
    assert BusiestDay(ds).value == day;
    forall e | e in ds
      ensures Occurrences(ds, e) <= Occurrences(ds, day)
      ensures Occurrences(ds, e) == Occurrences(ds, day) ==> FirstIndex(ds, day) <= FirstIndex(ds, e)
    {
      var j :| 0 <= j < |keys| && keys[j] == e;
      assert vals[j] == Occurrences(ds, e);
      if Occurrences(ds, e) == Occurrences(ds, day) && j != best {
        assert best < j;
        DistinctInFirstSeenOrder(ds, best, j);
      }
    }
  }

  // ------------------------------------------------------------------- trends

  /** One point of a daily series: a date and the number of records on it. */
  datatype DayCount = DayCount(day: int, count: nat)

  /** The covered period, from the date of `start_date` to the date of `end_date`. */
  datatype Trends = Trends(dailyVisits: seq<DayCount>, dailyToolUsage: seq<DayCount>, fromDay: int, toDay: int)

  const MinTrendDays: int := 1
  const MaxTrendDays: int := 365

  /** A record falls in the window when `start_date <= created_at <= end_date`. */
  predicate InWindow(ts: int, start: int, end: int) {
    start <= ts <= end
  }

  /** The positions of the records in the window whose date is `d`. */
  function RecordsOn(stamps: seq<int>, start: int, end: int, d: int): set<nat> {
    set i: nat | i < |stamps| && InWindow(stamps[i], start, end) && DayOf(stamps[i]) == d
  }

  lemma RecordsOnSnoc(stamps: seq<int>, start: int, end: int)
    requires stamps != []
    ensures var last := |stamps| - 1;
            var x := stamps[last];
            forall d :: RecordsOn(stamps, start, end, d) ==
                        RecordsOn(stamps[..last], start, end, d) + (if InWindow(x, start, end) && DayOf(x) == d then {last} else {})
  {
  }

  /**
   * The dates of the timestamps that fall in the window, in input order:
   * each date occurs once per window record on it.
   */
  function WindowDays(stamps: seq<int>, start: int, end: int): (ds: seq<int>)
    ensures forall d :: Occurrences(ds, d) == |RecordsOn(stamps, start, end, d)|
    ensures forall t :: t in stamps && InWindow(t, start, end) ==> DayOf(t) in ds
  {
    if stamps == [] then []
    else
      var last := |stamps| - 1;
      var init := stamps[..last];
      var rest := WindowDays(init, start, end);
      var x := stamps[last];
      var ds := if InWindow(x, start, end) then rest + [DayOf(x)] else rest;
      assert forall t :: t in stamps ==> t == x || t in init;
      RecordsOnSnoc(stamps, start, end);
      assert InWindow(x, start, end) ==> ds[..|rest|] == rest;
      ds
  }

  /** The positions of the login activities created at `t`. */
  function LoginsAt(acts: seq<Activity>, t: int): set<nat> {
    set i: nat | i < |acts| && acts[i].activityType == "login" && acts[i].createdAt == t
  }

  /** The times of the login activities, in input order: each time once per login created then. */
  function LoginStamps(acts: seq<Activity>): (ts: seq<int>)
    ensures forall t :: Occurrences(ts, t) == |LoginsAt(acts, t)|
  {
    if acts == [] then []
    else
      var last := |acts| - 1;
      var init := acts[..last];
      var rest := LoginStamps(init);
      var a := acts[last];
      var ts := if a.activityType == "login" then rest + [a.createdAt] else rest;
      LoginsAtSnoc(acts);
      assert a.activityType == "login" ==> ts[..|rest|] == rest;
      ts
  }

  lemma LoginsAtSnoc(acts: seq<Activity>)
    requires acts != []
    ensures var last := |acts| - 1;
            var a := acts[last];
            forall t :: LoginsAt(acts, t) ==
                        LoginsAt(acts[..last], t) + (if a.activityType == "login" && a.createdAt == t then {last} else {})
  {
  }

  /**
   * `GROUP BY date ORDER BY date` over the days `ds`, for the dates `lo..hi`:
   * one entry per date that has records, in ascending date order, each with
   * the number of records on it.
   */
  function Buckets(ds: seq<int>, lo: int, hi: int): (bs: seq<DayCount>)
    ensures forall i :: 0 <= i < |bs| ==> lo <= bs[i].day <= hi
    ensures forall i :: 0 <= i < |bs| ==> bs[i].count == Occurrences(ds, bs[i].day) && bs[i].count > 0
    ensures forall i, j :: 0 <= i < j < |bs| ==> bs[i].day < bs[j].day
    decreases hi - lo
  {
    if hi < lo then []
    else
      var rest := Buckets(ds, lo + 1, hi);
      var n := Occurrences(ds, lo);
      if n > 0 then
        var bs := [DayCount(lo, n)] + rest;
        assert forall i :: 0 < i < |bs| ==> bs[i] == rest[i - 1];
        bs
      else rest
  }

  /** Every date of `lo..hi` that has records has its entry in the buckets. */
  lemma {:induction false} BucketsCoverEveryDay(ds: seq<int>, lo: int, hi: int, d: int)
    requires lo <= d <= hi && d in ds
    ensures exists i :: 0 <= i < |Buckets(ds, lo, hi)| && Buckets(ds, lo, hi)[i].day == d
    decreases hi - lo
  {
    var bs := Buckets(ds, lo, hi);
    if d == lo {
      assert bs[0].day == d;
    } else {
      BucketsCoverEveryDay(ds, lo + 1, hi, d);
      var rest := Buckets(ds, lo + 1, hi);
      var i :| 0 <= i < |rest| && rest[i].day == d;
      if Occurrences(ds, lo) > 0 {
        assert bs[i + 1] == rest[i];
      } else {
        assert bs[i] == rest[i];
      }
    }
  }

  lemma DayOfMonotone(s: int, t: int)
    requires s <= t
    ensures DayOf(s) <= DayOf(t)
  {
  }

  /** Going back `k` whole days moves the date back by `k`. */
  lemma DayOfShift(t: int, k: int)
    ensures DayOf(t - k * SecondsPerDay) == DayOf(t) - k
  {
    var q, r := t / SecondsPerDay, t % SecondsPerDay;
    assert t == q * SecondsPerDay + r && 0 <= r < SecondsPerDay;
    assert t - k * SecondsPerDay == (q - k) * SecondsPerDay + r;
  }

  /**
   * A daily series of the trends: the dates are ascending and lie in the
   * period, each date carries the number of window records on it, and every
   * record in the window `start_date <= ts <= end_date` has its date listed.
   */
  predicate IsDailySeries(series: seq<DayCount>, stamps: seq<int>, start: int, end: int) {
    (forall i, j :: 0 <= i < j < |series| ==> series[i].day < series[j].day) &&
    (forall i :: 0 <= i < |series| ==> DayOf(start) <= series[i].day <= DayOf(end)) &&
    (forall i :: 0 <= i < |series| ==>
       series[i].count == |RecordsOn(stamps, start, end, series[i].day)| && series[i].count > 0) &&
    (forall t :: t in stamps && InWindow(t, start, end) ==> exists i :: 0 <= i < |series| && series[i].day == DayOf(t))
  }

  /** Grouping the window's dates over the period from the start date to the end date gives a daily series. */
  lemma SeriesOfWindow(stamps: seq<int>, start: int, end: int)
    ensures IsDailySeries(Buckets(WindowDays(stamps, start, end), DayOf(start), DayOf(end)), stamps, start, end)
  {
    var ds := WindowDays(stamps, start, end);
    var lo, hi := DayOf(start), DayOf(end);
    forall t | t in stamps && InWindow(t, start, end)
      ensures exists i :: 0 <= i < |Buckets(ds, lo, hi)| && Buckets(ds, lo, hi)[i].day == DayOf(t)
    {
      DayOfMonotone(start, t);
      DayOfMonotone(t, end);
      BucketsCoverEveryDay(ds, lo, hi, DayOf(t));
    }
  }

  /** `GROUP BY date ORDER BY date` over the records of the window from `start` to `end`. */
  function DailySeries(stamps: seq<int>, start: int, end: int): (series: seq<DayCount>)
    ensures IsDailySeries(series, stamps, start, end)
  {
    SeriesOfWindow(stamps, start, end);
    Buckets(WindowDays(stamps, start, end), DayOf(start), DayOf(end))
  }

  /**
   * `get_trends` over the fetched activities and tool-usage times, with `now`
   * as `end_date`: 400 unless 1 <= days <= 365, and otherwise the daily
   * series of login visits and of tool usage over the window.
   */
  function GetTrends(days: int, now: int, acts: seq<Activity>, usageStamps: seq<int>): (r: Result<Trends, HttpError>)
    ensures r.Err? <==> days < MinTrendDays || days > MaxTrendDays
    ensures r.Err? ==> r.error.status == BadRequest
    ensures r.Ok? ==> r.value.dailyVisits == DailySeries(LoginStamps(acts), now - days * SecondsPerDay, now)
    ensures r.Ok? ==> r.value.dailyToolUsage == DailySeries(usageStamps, now - days * SecondsPerDay, now)
  {
    if days < MinTrendDays || days > MaxTrendDays then
      Err(HttpError(BadRequest, "天数必须在1-365之间"))
    else
      var start := now - days * SecondsPerDay;
      Ok(Trends(DailySeries(LoginStamps(acts), start, now), DailySeries(usageStamps, start, now),
                DayOf(start), DayOf(now)))
  }

  /** The reported period runs from the date `days` days before `now` to the date of `now`. */
  lemma TrendsPeriod(days: int, now: int, acts: seq<Activity>, usageStamps: seq<int>)
    requires MinTrendDays <= days <= MaxTrendDays
    ensures var r := GetTrends(days, now, acts, usageStamps);
            r.Ok? && r.value.toDay == DayOf(now) && r.value.fromDay == DayOf(now) - days
  {
    DayOfShift(now, days);
  }
}
