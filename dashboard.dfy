/**
 * `get_dashboard` of app/routes/usage.py: the usage document is created if missing and
 * reset as in app/routes/api.py, then the plan limit, a seven-day call trend filled with
 * zeros, the today-versus-yesterday comparison and the remaining quota are reported.
 * The per-day call counts come from a database aggregation and are a parameter here.
 */
module Dashboard {
  import opened Wrappers
  import opened Metering

  datatype TrendEntry = TrendEntry(date: string, calls: int)

  /** `daily_dict.get(day, 0)`. */
  function CallsOn(daily: map<string, int>, day: string): int {
    if day in daily then daily[day] else 0
  }

  /** The seven days from `today - 6` to `today`, each with its count or 0. */
  function Trend(today: int, dates: Dates, daily: map<string, int>): (t: seq<TrendEntry>)
    ensures |t| == 7
    ensures forall i :: 0 <= i < 7 ==> t[i].date == dates.iso(today - 6 + i)
    ensures forall i :: 0 <= i < 7 ==> t[i].calls == CallsOn(daily, t[i].date)
  {
    seq(7, i requires 0 <= i < 7 => TrendEntry(dates.iso(today - 6 + i), CallsOn(daily, dates.iso(today - 6 + i))))
  }

  /** The `for i in range(7)` loop that builds `trend`. */
  method BuildTrend(today: int, dates: Dates, daily: map<string, int>) returns (trend: seq<TrendEntry>)
    ensures trend == Trend(today, dates, daily)
  {
    var startDate := today - 6;
    trend := [];
    for i := 0 to 7
      invariant |trend| == i
      invariant forall k :: 0 <= k < i ==> trend[k] == TrendEntry(dates.iso(startDate + k), CallsOn(daily, dates.iso(startDate + k)))
    {
      var day := dates.iso(startDate + i);
      trend := trend + [TrendEntry(day, CallsOn(daily, day))];
    }
  }

  /** The last entry is today and the one before it yesterday. */
  lemma TrendEnds(today: int, dates: Dates, daily: map<string, int>)
    ensures var t := Trend(today, dates, daily);
      && t[6] == TrendEntry(dates.iso(today), CallsOn(daily, dates.iso(today)))
      && t[5] == TrendEntry(dates.iso(today - 1), CallsOn(daily, dates.iso(today - 1)))
  {
  }

  /** `"increased"`, `"decreased"` or `"same"` for today against yesterday. */
  function Comparison(todayCalls: int, yesterdayCalls: int): (r: string)
    ensures r == "increased" <==> todayCalls > yesterdayCalls
    ensures r == "decreased" <==> todayCalls < yesterdayCalls
    ensures r == "same" <==> todayCalls == yesterdayCalls
  {
    if todayCalls > yesterdayCalls then "increased"
    else if todayCalls < yesterdayCalls then "decreased"
    else "same"
  }

  datatype Board = Board(
    planLimit: int, callsToday: int, callsMonth: int, remainingQuota: int,
    trend: seq<TrendEntry>, comparison: string, todayCalls: int, yesterdayCalls: int,
    lastDayReset: string, lastMonthReset: string)

  /**
   * `get_dashboard(user)`: the document left in the usage collection and the answer.
   * `usage["last_day_reset"]` and `usage["last_month_reset"]` are read without a
   * default, so a document lacking either ends in a 500.
   */
  function GetDashboard(user: User, stored: Option<Usage>, today: int, dates: Dates,
                        daily: map<string, int>): (Usage, Result<Board, HttpError>)
  {
    var u := stored.GetOr(NewUsage(today, dates));
    var (v, _) := ResetUsage(u, today, dates);
    var limit := PlanLimit(user.plan);
    var trend := Trend(today, dates, daily);
    var todayCalls := trend[6].calls;
    var yesterdayCalls := trend[5].calls;
    var month := v.callsMonth.GetOr(0);
    if v.lastDayReset.None? || v.lastMonthReset.None? then (v, Err(Internal))
    else
      (v, Ok(Board(limit, v.callsToday.GetOr(0), month, limit - month, trend,
                   Comparison(todayCalls, yesterdayCalls), todayCalls, yesterdayCalls,
                   v.lastDayReset.value, v.lastMonthReset.value)))
  }

  /**
   * The figures are those of the reset document: the remaining quota is the plan limit
   * less the month's calls (missing counting as 0), and the comparison is today's trend
   * entry against yesterday's.
   */
  lemma DashboardFigures(user: User, stored: Option<Usage>, today: int, dates: Dates, daily: map<string, int>)
    ensures var v := ResetUsage(stored.GetOr(NewUsage(today, dates)), today, dates).0;
            var (w, r) := GetDashboard(user, stored, today, dates, daily);
      && w == v
      && (r.Ok? <==> v.lastDayReset.Some? && v.lastMonthReset.Some?)
      && (r.Ok? ==>
            && r.value.planLimit == PlanLimit(user.plan)
            && r.value.callsMonth == v.callsMonth.GetOr(0)
            && r.value.remainingQuota == PlanLimit(user.plan) - v.callsMonth.GetOr(0)
            && r.value.todayCalls == CallsOn(daily, dates.iso(today))
            && r.value.yesterdayCalls == CallsOn(daily, dates.iso(today - 1))
            && (r.value.comparison == "increased" <==> r.value.todayCalls > r.value.yesterdayCalls))
  {
    TrendEnds(today, dates, daily);
  }

  /** A user with no usage document sees a fresh one: nothing used, the whole plan remaining. */
  lemma NewUserDashboard(user: User, today: int, dates: Dates, daily: map<string, int>)
    requires dates.parse(dates.iso(today)) == Some(today)
    ensures var (w, r) := GetDashboard(user, None, today, dates, daily);
      && w == NewUsage(today, dates)
      && r.Ok? && r.value.remainingQuota == r.value.planLimit && r.value.callsToday == 0
  {
    var u := NewUsage(today, dates);
    assert ResetDate(u.lastDayReset, today, dates) == today;
    assert ResetUsage(u, today, dates).0 == u;
  }
}
