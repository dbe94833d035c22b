/**
 * The usage metering of app/routes/api.py: the daily and monthly counter resets of
 * `_reset_usage_if_needed`, the plan-limit table and the quota check of `use_api`.
 *
 * Dates are day numbers. `date.today()` is the parameter `today`; `isoformat()` and
 * `datetime.fromisoformat(s).date()` are the parameters `iso` and `parse`, the latter
 * giving `None` where Python raises. The database is left out: the stored usage document
 * comes in as a value and the document the request leaves behind comes out as one.
 */
module Metering {
  import opened Wrappers
  import opened Json
  import opened UtilsFormat
  import opened Markup
  import opened Url
  import opened ScrapeRecords
  import opened Crawl

  /** `date.isoformat()` and `datetime.fromisoformat(s).date()`, on day numbers. */
  datatype Dates = Dates(iso: int -> string, parse: string -> Option<int>)

  /** The fields of a usage document the code reads and writes; any of them may be missing. */
  datatype Usage = Usage(
    callsMonth: Option<int>,
    callsToday: Option<int>,
    lastDayReset: Option<string>,
    lastMonthReset: Option<string>)

  /** The stored reset date, or `today` when it is missing or not an ISO date. */
  function ResetDate(stored: Option<string>, today: int, dates: Dates): int {
    match stored
    case None => today
    case Some(s) => dates.parse(s).GetOr(today)
  }

  /** `(today - last_month_reset).days >= 30`. */
  predicate MonthDue(u: Usage, today: int, dates: Dates) {
    today - ResetDate(u.lastMonthReset, today, dates) >= 30
  }

  /** `last_day_reset != today`, which a reset date in the future satisfies too. */
  predicate DayDue(u: Usage, today: int, dates: Dates) {
    ResetDate(u.lastDayReset, today, dates) != today
  }

  /** `_reset_usage_if_needed(usage_doc)`: the document afterwards and the `updated` flag. */
  function ResetUsage(u: Usage, today: int, dates: Dates): (Usage, bool) {
    var m := if MonthDue(u, today, dates)
      then u.(callsMonth := Some(0), lastMonthReset := Some(dates.iso(today))) else u;
    var d := if DayDue(u, today, dates)
      then m.(callsToday := Some(0), lastDayReset := Some(dates.iso(today))) else m;
    (d, MonthDue(u, today, dates) || DayDue(u, today, dates))
  }

  /** The dict `_reset_usage_if_needed` changes in place. */
  class UsageDoc {
    var callsMonth: Option<int>
    var callsToday: Option<int>
    var lastDayReset: Option<string>
    var lastMonthReset: Option<string>

    function Snapshot(): Usage
      reads this
    {
      Usage(callsMonth, callsToday, lastDayReset, lastMonthReset)
    }

    constructor (u: Usage)
      ensures Snapshot() == u
    {
      callsMonth, callsToday := u.callsMonth, u.callsToday;
      lastDayReset, lastMonthReset := u.lastDayReset, u.lastMonthReset;
    }

    method ResetIfNeeded(today: int, dates: Dates) returns (updated: bool)
      modifies this
      ensures (Snapshot(), updated) == ResetUsage(old(Snapshot()), today, dates)
    {
      var lastDay := ResetDate(lastDayReset, today, dates);
      var lastMonth := ResetDate(lastMonthReset, today, dates);
      updated := false;
      if today - lastMonth >= 30 {
        callsMonth := Some(0);
        lastMonthReset := Some(dates.iso(today));
        updated := true;
      }
      if lastDay != today {
        callsToday := Some(0);
        lastDayReset := Some(dates.iso(today));
        updated := true;
      }
    }
  }

  /** The monthly counter and date are reset exactly when 30 or more days have passed, else left alone. */
  lemma MonthReset(u: Usage, today: int, dates: Dates)
    ensures var r := ResetUsage(u, today, dates).0;
      && (MonthDue(u, today, dates) ==> r.callsMonth == Some(0) && r.lastMonthReset == Some(dates.iso(today)))
      && (!MonthDue(u, today, dates) ==> r.callsMonth == u.callsMonth && r.lastMonthReset == u.lastMonthReset)
  {
  }

  /** The daily counter and date are reset exactly when the stored day is not today, else left alone. */
  lemma DayReset(u: Usage, today: int, dates: Dates)
    ensures var r := ResetUsage(u, today, dates).0;
      && (DayDue(u, today, dates) ==> r.callsToday == Some(0) && r.lastDayReset == Some(dates.iso(today)))
      && (!DayDue(u, today, dates) ==> r.callsToday == u.callsToday && r.lastDayReset == u.lastDayReset)
  {
  }

  /** `updated` says whether a reset fired, and without one the document is unchanged. */
  lemma UpdatedIff(u: Usage, today: int, dates: Dates)
    ensures ResetUsage(u, today, dates).1 <==> MonthDue(u, today, dates) || DayDue(u, today, dates)
    ensures !ResetUsage(u, today, dates).1 ==> ResetUsage(u, today, dates).0 == u
  {
  }

  /** A reset date that is missing or does not parse counts as today: nothing is reset for it. */
  lemma UnreadableIsToday(u: Usage, today: int, dates: Dates)
    ensures (u.lastDayReset.None? || dates.parse(u.lastDayReset.value).None?) ==>
      var r := ResetUsage(u, today, dates).0;
      r.callsToday == u.callsToday && r.lastDayReset == u.lastDayReset
    ensures (u.lastMonthReset.None? || dates.parse(u.lastMonthReset.value).None?) ==>
      var r := ResetUsage(u, today, dates).0;
      r.callsMonth == u.callsMonth && r.lastMonthReset == u.lastMonthReset
  {
  }

  /** When `fromisoformat` reads back what `isoformat` writes, a second reset on the same day does nothing. */
  lemma ResetIdempotent(u: Usage, today: int, dates: Dates)
    requires dates.parse(dates.iso(today)) == Some(today)
    ensures var r := ResetUsage(u, today, dates).0;
      ResetUsage(r, today, dates) == (r, false)
  {
    var r := ResetUsage(u, today, dates).0;
    assert ResetDate(r.lastDayReset, today, dates) == today;
    assert !MonthDue(r, today, dates);
  }

  // ---------------------------------------------------------------------------------
  // Plans
  // ---------------------------------------------------------------------------------

  /** `PLANS`. */
  const Plans: map<int, int> := map[0 := 10, 1 := 20, 2 := 30]

  /** `PLANS.get(user.get("plan", 0), 10)`. */
  function PlanLimit(plan: Option<int>): int {
    var p := plan.GetOr(0);
    if p in Plans then Plans[p] else 10
  }

  /** Plan `p` of 0, 1 or 2 allows `10 * (p + 1)` calls a month; no plan or any other plan allows 10. */
  lemma PlanLimits(plan: Option<int>)
    ensures plan.None? ==> PlanLimit(plan) == 10
    ensures plan.Some? && 0 <= plan.value <= 2 ==> PlanLimit(plan) == 10 * (plan.value + 1)
    ensures plan.Some? && !(0 <= plan.value <= 2) ==> PlanLimit(plan) == 10
  {
  }

  // ---------------------------------------------------------------------------------
  // use_api
  // ---------------------------------------------------------------------------------

  datatype User = User(plan: Option<int>)

  /**
   * The fields of the successful answer. Its `result1`, `result2` and `result3` are
   * renderings of the scrape results it carries; see `Result1` to `Result3`.
   */
  datatype ApiAnswer = ApiAnswer(
    url: string, callsToday: int, callsMonth: int, planLimit: int,
    lastDayReset: string, lastMonthReset: string, results: seq<Entry>)

  /** `format_json_output(format_markdown_output(results))`. */
  function Result1(a: ApiAnswer, parse: string -> Soup): string {
    FormatJsonOutput(FormatMarkdownOutput(a.results, parse))
  }

  /** `format_text_output(results)`. */
  function Result2(a: ApiAnswer, parse: string -> Soup): string {
    FormatTextOutput(a.results, parse)
  }

  /** `format_markdown_output(results)`. */
  function Result3(a: ApiAnswer, parse: string -> Soup): string {
    FormatMarkdownOutput(a.results, parse)
  }

  /** What a request leaves in the usage collection for its user, and what it answers. */
  datatype ApiOutcome = ApiOutcome(stored: Option<Usage>, answer: Result<ApiAnswer, HttpError>)

  /** The document inserted for a user who has none. */
  function NewUsage(today: int, dates: Dates): Usage {
    Usage(Some(0), Some(0), Some(dates.iso(today)), Some(dates.iso(today)))
  }

  /** An exception FastAPI turns into a bare 500 (a `KeyError` on a missing field). */
  const Internal := HttpError(500, "Internal Server Error")

  const OverQuota := HttpError(403, "Monthly API limit exceeded for your plan")

  const ScrapeFailed := HttpError(500, "Scraping failed to retrieve URL information or URL key is missing in the result.")

  /** `not results or results[0].get('url') is None`, an exception for a non-dict counting as failure too. */
  predicate NoUrl(results: seq<Entry>) {
    results == [] || results[0].NotDict? || results[0].url.None?
  }

  /**
   * `use_api(x_api_key, url)`: `users` maps secret tokens to users, `stored` is the user's
   * usage document if there is one, and `results` is what `scrape_multiple_pages(url,
   * max_pages=1)` returns.
   */
  function UseApi(apiKey: Option<string>, url: string, users: map<string, User>, stored: Option<Usage>,
                  today: int, dates: Dates, results: seq<Entry>): ApiOutcome
  {
    if apiKey.None? || apiKey.value == "" then
      ApiOutcome(stored, Err(HttpError(401, "x-api-key header required")))
    else if apiKey.value !in users then
      ApiOutcome(stored, Err(HttpError(401, "Invalid API key")))
    else
      var u := stored.GetOr(NewUsage(today, dates));
      var (v, _) := ResetUsage(u, today, dates);
      Meter(v, PlanLimit(users[apiKey.value].plan), url, results)
  }

  /** From the quota check on, with the document already reset and written back. */
  function Meter(v: Usage, limit: int, url: string, results: seq<Entry>): ApiOutcome {
    if v.callsMonth.None? then ApiOutcome(Some(v), Err(Internal))
    else if v.callsMonth.value >= limit then
      ApiOutcome(Some(v), Err(OverQuota))
    else if v.callsToday.None? || v.lastDayReset.None? || v.lastMonthReset.None? then
      ApiOutcome(Some(v), Err(Internal))
    else
      var month := v.callsMonth.value + 1;
      var day := v.callsToday.value + 1;
      var w := v.(callsMonth := Some(month), callsToday := Some(day));
      if NoUrl(results) then ApiOutcome(Some(w), Err(ScrapeFailed))
      else ApiOutcome(Some(w), Ok(ApiAnswer(url, day, month, limit, v.lastDayReset.value, v.lastMonthReset.value, results)))
  }

  /** Without an API key, or with an unknown one, the answer is 401 and nothing is stored. */
  lemma Unauthorized(apiKey: Option<string>, url: string, users: map<string, User>, stored: Option<Usage>,
                     today: int, dates: Dates, results: seq<Entry>)
    requires apiKey.None? || apiKey.value == "" || apiKey.value !in users
    ensures var o := UseApi(apiKey, url, users, stored, today, dates, results);
      o.stored == stored && o.answer.Err? && o.answer.error.status == 401
  {
  }

  /**
   * Once the counters are reset, a known user is refused with 403 exactly when the month's
   * calls have reached the plan limit, and then the counters stay as they are; otherwise
   * both counters grow by exactly one, whether or not the scrape then fails.
   */
  lemma QuotaCheck(key: string, url: string, users: map<string, User>, stored: Option<Usage>,
                   today: int, dates: Dates, results: seq<Entry>)
    requires key != "" && key in users
    requires var v := ResetUsage(stored.GetOr(NewUsage(today, dates)), today, dates).0;
      v.callsMonth.Some? && v.callsToday.Some? && v.lastDayReset.Some? && v.lastMonthReset.Some?
    ensures var v := ResetUsage(stored.GetOr(NewUsage(today, dates)), today, dates).0;
            var limit := PlanLimit(users[key].plan);
            var o := UseApi(Some(key), url, users, stored, today, dates, results);
      && (o.answer.Err? && o.answer.error.status == 403 <==> v.callsMonth.value >= limit)
      && (v.callsMonth.value >= limit ==> o.answer == Err(OverQuota))
      && (v.callsMonth.value >= limit ==> o.stored == Some(v))
      && (v.callsMonth.value < limit ==>
            o.stored == Some(v.(callsMonth := Some(v.callsMonth.value + 1), callsToday := Some(v.callsToday.value + 1))))
  {
    var v := ResetUsage(stored.GetOr(NewUsage(today, dates)), today, dates).0;
    var limit := PlanLimit(users[key].plan);
    assert UseApi(Some(key), url, users, stored, today, dates, results) == Meter(v, limit, url, results);
    MeterQuota(v, limit, url, results);
  }

  lemma MeterQuota(v: Usage, limit: int, url: string, results: seq<Entry>)
    requires v.callsMonth.Some? && v.callsToday.Some? && v.lastDayReset.Some? && v.lastMonthReset.Some?
    ensures var o := Meter(v, limit, url, results);
      && (o.answer.Err? && o.answer.error.status == 403 <==> v.callsMonth.value >= limit)
      && (v.callsMonth.value >= limit ==> o.answer == Err(OverQuota))
      && (v.callsMonth.value >= limit ==> o.stored == Some(v))
      && (v.callsMonth.value < limit ==>
            o.stored == Some(v.(callsMonth := Some(v.callsMonth.value + 1), callsToday := Some(v.callsToday.value + 1))))
  {
  }

  /** A first request of a new user on a plan is never over quota and leaves one call counted. */
  lemma NewUserFirstCall(key: string, url: string, users: map<string, User>, today: int, dates: Dates,
                         results: seq<Entry>)
    requires key != "" && key in users
    requires dates.parse(dates.iso(today)) == Some(today)
    ensures UseApi(Some(key), url, users, None, today, dates, results).stored == Some(NewUsage(today, dates).(callsMonth := Some(1), callsToday := Some(1)))
  {
    var u := NewUsage(today, dates);
    assert ResetDate(u.lastDayReset, today, dates) == today;
    assert ResetUsage(u, today, dates).0 == u;
  }

  /** An answer that is not an error reports the counters it stored. */
  lemma AnswerMatchesStored(apiKey: Option<string>, url: string, users: map<string, User>, stored: Option<Usage>,
                            today: int, dates: Dates, results: seq<Entry>)
    ensures var o := UseApi(apiKey, url, users, stored, today, dates, results);
      o.answer.Ok? ==> && o.stored.Some?
                       && o.stored.value.callsMonth == Some(o.answer.value.callsMonth)
                       && o.stored.value.callsToday == Some(o.answer.value.callsToday)
                       && o.answer.value.callsMonth <= o.answer.value.planLimit
                       && !NoUrl(results)
  {
  }

  /**
   * `scrape_multiple_pages(url, max_pages=1)` normalises the URL and then runs the crawl
   * on it; its first record always has a URL, so the scrape-failure 500 cannot occur.
   */
  lemma ApiScrapeHasUrl(url: string, libs: Libs, results: seq<Record>)
    requires RecordsOf(results, Final(ScrapeEnv(NormalizeUrl(url), 1, libs)).attempts, libs)
    ensures !NoUrl(FromRecords(results))
  {
    ScrapeStart(NormalizeUrl(url), 1, libs, results);
    RecordsHaveUrl(results);
  }

  lemma RecordsHaveUrl(results: seq<Record>)
    requires results != []
    ensures !NoUrl(FromRecords(results))
  {
  }
}
