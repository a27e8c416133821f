/** The analytics service's reports: what `AnalyticsDatabase` does with the rows a MongoDB
    aggregation returns. The aggregation itself is not modelled; its result rows are inputs.
    Instants are whole seconds since the Unix epoch (UTC); rates are exact reals. */
module AnalyticsDb {
  import opened Outcomes
  import opened Dicts

  type Instant = int

  const SecondsPerHour := 3600
  const SecondsPerDay := 86400
  /** Python's `datetime.min`, 0001-01-01T00:00:00. */
  const DatetimeMin: Instant := -62135596800

  datatype TimeRange = HourRange | DayRange | WeekRange | MonthRange | YearRange | AllTime

  datatype ServiceType = LlmChat | TextToImage | TextToSpeech {
    function Value(): string {
      match this
      case LlmChat => "llm_chat"
      case TextToImage => "text_to_image"
      case TextToSpeech => "text_to_speech"
    }
  }

  /** The members of `ServiceType` in declaration order. */
  const AllServiceTypes: seq<ServiceType> := [LlmChat, TextToImage, TextToSpeech]

  /** `_get_time_range_start`: `now` minus the range's span, or `datetime.min` for ALL. */
  function TimeRangeStart(range: TimeRange, now: Instant): (start: Instant)
    ensures range != AllTime ==> start < now
    ensures range == AllTime ==> start == DatetimeMin
  {
    match range
    case HourRange => now - SecondsPerHour
    case DayRange => now - SecondsPerDay
    case WeekRange => now - 7 * SecondsPerDay
    case MonthRange => now - 30 * SecondsPerDay
    case YearRange => now - 365 * SecondsPerDay
    case AllTime => DatetimeMin
  }

  /** Longer ranges start earlier: ALL, YEAR, MONTH, WEEK, DAY, HOUR in that order, as long as
      `now` lies far enough past `datetime.min` for the subtraction to be representable. */
  lemma TimeRangeStartsOrdered(now: Instant)
    requires now - 365 * SecondsPerDay >= DatetimeMin
    ensures TimeRangeStart(AllTime, now) <= TimeRangeStart(YearRange, now)
    ensures TimeRangeStart(YearRange, now) < TimeRangeStart(MonthRange, now)
    ensures TimeRangeStart(MonthRange, now) < TimeRangeStart(WeekRange, now)
    ensures TimeRangeStart(WeekRange, now) < TimeRangeStart(DayRange, now)
    ensures TimeRangeStart(DayRange, now) < TimeRangeStart(HourRange, now)
  {
  }

  /** The span each range covers, in seconds; ALL is unbounded. */
  function Span(range: TimeRange): Option<nat> {
    match range
    case HourRange => Some(SecondsPerHour)
    case DayRange => Some(SecondsPerDay)
    case WeekRange => Some(7 * SecondsPerDay)
    case MonthRange => Some(30 * SecondsPerDay)
    case YearRange => Some(365 * SecondsPerDay)
    case AllTime => None
  }

  /** The bucket format of `get_usage_stats`: per day for WEEK and MONTH, per hour otherwise. */
  function GroupFormat(range: TimeRange): (format: string)
    ensures format == "%Y-%m-%d" <==> range == WeekRange || range == MonthRange
    ensures format == "%Y-%m-%d" || format == "%Y-%m-%d-%H"
  {
    if range == WeekRange || range == MonthRange then "%Y-%m-%d" else "%Y-%m-%d-%H"
  }

  /** The `timestamp` condition of a query. */
  datatype TimeFilter = Unfiltered | Window(from: Option<Instant>, until: Option<Instant>)

  /** Which events' `user_id` a query accepts: any, or exactly the given one (`None` meaning
      anonymous events). */
  datatype UserMatch = AnyUser | OnlyUser(id: Option<string>)

  datatype Query = Query(user: UserMatch, time: TimeFilter)

  /** The stored fields of an event that queries look at. */
  datatype Event = Event(userId: Option<string>, timestamp: Instant)

  predicate Admits(f: TimeFilter, t: Instant) {
    match f
    case Unfiltered => true
    case Window(from, until) => (from.None? || from.value <= t) && (until.None? || t <= until.value)
  }

  predicate Matches(q: Query, e: Event) {
    (q.user.AnyUser? || q.user.id == e.userId) && Admits(q.time, e.timestamp)
  }

  /** The `$gte` filter every report applies for a range other than ALL. */
  function RangeFilter(range: TimeRange, now: Instant): (f: TimeFilter)
    ensures forall t :: Admits(f, t) <==> range == AllTime || now - Span(range).value <= t
  {
    if range == AllTime then Unfiltered else Window(Some(TimeRangeStart(range, now)), None)
  }

  /** Widening the range never loses an event. */
  lemma LongerRangesAdmitMore(now: Instant, t: Instant)
    requires now - 365 * SecondsPerDay >= DatetimeMin
    ensures Admits(RangeFilter(HourRange, now), t) ==> Admits(RangeFilter(DayRange, now), t)
    ensures Admits(RangeFilter(DayRange, now), t) ==> Admits(RangeFilter(WeekRange, now), t)
    ensures Admits(RangeFilter(WeekRange, now), t) ==> Admits(RangeFilter(MonthRange, now), t)
    ensures Admits(RangeFilter(MonthRange, now), t) ==> Admits(RangeFilter(YearRange, now), t)
    ensures Admits(RangeFilter(YearRange, now), t) ==> Admits(RangeFilter(AllTime, now), t)
  {
  }

  /** The query of `get_user_analytics`: always on `user_id` (so `None` selects anonymous
      events); explicit dates, when either is given, replace the range. */
  function UserAnalyticsQuery(userId: Option<string>, range: TimeRange, startDate: Option<Instant>,
                              endDate: Option<Instant>, now: Instant): (q: Query)
    ensures q.user == OnlyUser(userId)
    ensures startDate.Some? || endDate.Some? ==> q.time == Window(startDate, endDate)
    ensures startDate.None? && endDate.None? ==> q.time == RangeFilter(range, now)
  {
    var time :=
      if startDate.Some? || endDate.Some? then Window(startDate, endDate)
      else RangeFilter(range, now);
    Query(OnlyUser(userId), time)
  }

  /** The query of `get_usage_stats`: a user condition only when a user id is given. */
  function UsageStatsQuery(userId: Option<string>, range: TimeRange, now: Instant): (q: Query)
    ensures q.time == RangeFilter(range, now)
    ensures q.user == if userId.None? then AnyUser else OnlyUser(userId)
  {
    Query(if userId.None? then AnyUser else OnlyUser(userId), RangeFilter(range, now))
  }

  /** A missing user id means opposite things in the two reports: the user report selects
      only anonymous events, the usage report selects every event. */
  lemma NoUserIdMeansAnonymousOrEveryone(range: TimeRange, now: Instant, e: Event)
    ensures Matches(UserAnalyticsQuery(None, range, None, None, now), e) <==>
      e.userId.None? && Admits(RangeFilter(range, now), e.timestamp)
    ensures Matches(UsageStatsQuery(None, range, now), e) <==> Admits(RangeFilter(range, now), e.timestamp)
  {
  }

  /** `successful / total * 100` when `total > 0`, else `0.0`. */
  function SuccessRate(successful: int, total: int): (rate: real)
    ensures total <= 0 ==> rate == 0.0
    ensures total > 0 ==> rate * total as real == successful as real * 100.0
  {
    if total > 0 then successful as real / total as real * 100.0 else 0.0
  }

  /** A success count within the total gives a percentage. */
  lemma SuccessRateIsPercentage(successful: int, total: int)
    requires 0 <= successful <= total
    ensures 0.0 <= SuccessRate(successful, total) <= 100.0
    ensures SuccessRate(successful, total) == 100.0 <==> total > 0 && successful == total
  {
    if total > 0 {
      var rate := SuccessRate(successful, total);
      assert rate * total as real == successful as real * 100.0;
      assert rate * total as real <= 100.0 * total as real;
    }
  }

  // ---------------------------------------------------------------- get_user_analytics

  /** The single row the user aggregation groups into. */
  datatype UserGroup = UserGroup(
    totalRequests: nat,
    successfulRequests: nat,
    failedRequests: nat,
    llmChatRequests: nat,
    imageGenerationRequests: nat,
    speechGenerationRequests: nat,
    totalInputTokens: int,
    totalOutputTokens: int,
    totalStorageBytes: int,
    avgResponseTimeMs: Option<real>,
    firstRequest: Option<Instant>,
    lastRequest: Option<Instant>)

  datatype UserAnalytics =
    | UserTotals(group: UserGroup, totalTokens: int, successRate: real)
    | NoUserEvents(totalRequests: nat, successfulRequests: nat, failedRequests: nat, successRate: real)

  /** `get_user_analytics` after the aggregation: the group row extended with
      `total_tokens` and `success_rate`, or the zero report when no event matched. */
  function UserAnalyticsOf(result: Option<UserGroup>): (a: UserAnalytics)
    ensures result.None? ==> a == NoUserEvents(0, 0, 0, 0.0)
    ensures result.Some? ==> a.UserTotals? && a.group == result.value
    ensures result.Some? ==> a.totalTokens == result.value.totalInputTokens + result.value.totalOutputTokens
    ensures result.Some? && result.value.successfulRequests <= result.value.totalRequests ==>
      0.0 <= a.successRate <= 100.0
    ensures result.Some? ==> a.successRate == SuccessRate(result.value.successfulRequests, result.value.totalRequests)
    ensures result.Some? && result.value.totalRequests == 0 ==> a.successRate == 0.0
  {
    match result
    case None => NoUserEvents(0, 0, 0, 0.0)
    case Some(g) =>
      SuccessRateIsPercentage(if g.successfulRequests <= g.totalRequests then g.successfulRequests else 0, g.totalRequests);
      UserTotals(g, g.totalInputTokens + g.totalOutputTokens, SuccessRate(g.successfulRequests, g.totalRequests))
  }

  // ------------------------------------------------------------- get_service_analytics

  /** The single row the service aggregation groups into; `uniqueUsers` is `$addToSet` of
      `user_id`, so anonymous events contribute `None`. */
  datatype ServiceGroup = ServiceGroup(
    totalRequests: nat,
    successfulRequests: nat,
    failedRequests: nat,
    uniqueUsers: seq<Option<string>>,
    avgResponseTimeMs: Option<real>)

  datatype ServiceAnalytics =
    | ServiceTotals(
        serviceType: string,
        totalRequests: nat,
        successfulRequests: nat,
        failedRequests: nat,
        successRate: real,
        uniqueUsers: nat,
        anonymousUsers: nat,
        avgResponseTimeMs: Option<real>)
    | NoServiceEvents(serviceType: string, totalRequests: nat, uniqueUsers: nat)

  /** `ids.count(None)`. */
  function CountNone(ids: seq<Option<string>>): (n: nat)
    ensures n <= |ids|
  {
    if ids == [] then 0 else (if ids[0].None? then 1 else 0) + CountNone(ids[1..])
  }

  /** The named users among `ids`. */
  function NamedIds(ids: seq<Option<string>>): set<string> {
    set i | 0 <= i < |ids| && ids[i].Some? :: ids[i].value
  }

  /** For a duplicate-free id list (what `$addToSet` yields), `None` occurs at most once and
      `len(ids) - ids.count(None)` is the number of distinct named users. */
  lemma {:induction false} DistinctIdsCount(ids: seq<Option<string>>)
    requires forall i, j :: 0 <= i < j < |ids| ==> ids[i] != ids[j]
    ensures CountNone(ids) <= 1
    ensures |ids| - CountNone(ids) == |NamedIds(ids)|
  {
    if ids != [] {
      var tail := ids[1..];
      DistinctIdsCount(tail);
      assert forall i :: 0 <= i < |tail| ==> tail[i] == ids[i + 1] != ids[0];
      forall x | x in NamedIds(ids) ensures x in NamedIds(tail) || (ids[0].Some? && x == ids[0].value) {
        var i :| 0 <= i < |ids| && ids[i].Some? && ids[i].value == x;
        if i > 0 { assert tail[i - 1] == ids[i]; }
      }
      forall x | x in NamedIds(tail) ensures x in NamedIds(ids) && (ids[0].Some? ==> x != ids[0].value) {
        var i :| 0 <= i < |tail| && tail[i].Some? && tail[i].value == x;
        assert ids[i + 1] == tail[i];
      }
      if ids[0].None? {
        assert NamedIds(ids) == NamedIds(tail);
        NoNoneCountsZero(tail);
      } else {
        assert NamedIds(ids) == {ids[0].value} + NamedIds(tail);
      }
    }
  }

  /** A list without `None` counts no `None`. */
  lemma {:induction false} NoNoneCountsZero(ids: seq<Option<string>>)
    requires forall i :: 0 <= i < |ids| ==> ids[i].Some?
    ensures CountNone(ids) == 0
  {
    if ids != [] {
      assert forall i :: 0 <= i < |ids| - 1 ==> ids[1..][i] == ids[i + 1];
      NoNoneCountsZero(ids[1..]);
    }
  }

  /** `get_service_analytics` after the aggregation. */
  function ServiceAnalyticsOf(service: ServiceType, result: Option<ServiceGroup>): (a: ServiceAnalytics)
    ensures a.serviceType == service.Value()
    ensures result.None? ==> a == NoServiceEvents(service.Value(), 0, 0)
    ensures result.Some? ==>
      && a.ServiceTotals?
      && a.totalRequests == result.value.totalRequests
      && a.successfulRequests == result.value.successfulRequests
      && a.failedRequests == result.value.failedRequests
      && a.anonymousUsers == CountNone(result.value.uniqueUsers)
      && a.uniqueUsers + a.anonymousUsers == |result.value.uniqueUsers|
      && a.successRate == SuccessRate(result.value.successfulRequests, result.value.totalRequests)
      && (result.value.totalRequests == 0 ==> a.successRate == 0.0)
      && (result.value.successfulRequests <= result.value.totalRequests ==> 0.0 <= a.successRate <= 100.0)
      && a.avgResponseTimeMs == result.value.avgResponseTimeMs
  {
    match result
    case None => NoServiceEvents(service.Value(), 0, 0)
    case Some(g) =>
      var anonymous := CountNone(g.uniqueUsers);
      SuccessRateIsPercentage(if g.successfulRequests <= g.totalRequests then g.successfulRequests else 0, g.totalRequests);
      ServiceTotals(service.Value(), g.totalRequests, g.successfulRequests, g.failedRequests,
                    SuccessRate(g.successfulRequests, g.totalRequests),
                    |g.uniqueUsers| - anonymous, anonymous, g.avgResponseTimeMs)
  }

  // -------------------------------------------------------------- get_system_analytics

  datatype OverallGroup = OverallGroup(
    totalRequests: nat,
    uniqueUsers: seq<Option<string>>,
    startDate: Option<Instant>,
    endDate: Option<Instant>)

  /** A row of the top-users aggregation (`_id` and `request_count`). */
  datatype TopUser = TopUser(userId: string, requestCount: nat)

  datatype SystemAnalytics =
    | SystemTotals(
        totalRequests: nat,
        totalUsers: nat,
        totalAnonymousRequests: nat,
        services: seq<ServiceAnalytics>,
        topUsers: seq<TopUser>,
        startDate: Option<Instant>,
        endDate: Option<Instant>)
    | NoSystemEvents(totalRequests: nat, totalUsers: nat, services: seq<ServiceAnalytics>, topUsers: seq<TopUser>)

  /** The service breakdown of `get_system_analytics`: one report per service type, in
      declaration order; `groupOf` stands for the per-service aggregation. */
  method ServiceBreakdown(groupOf: ServiceType -> Option<ServiceGroup>) returns (services: seq<ServiceAnalytics>)
    ensures |services| == |AllServiceTypes|
    ensures forall i :: 0 <= i < |services| ==>
      services[i] == ServiceAnalyticsOf(AllServiceTypes[i], groupOf(AllServiceTypes[i]))
  {
    services := [];
    for i := 0 to |AllServiceTypes|
      invariant |services| == i
      invariant forall j :: 0 <= j < i ==>
        services[j] == ServiceAnalyticsOf(AllServiceTypes[j], groupOf(AllServiceTypes[j]))
    {
      var serviceData := ServiceAnalyticsOf(AllServiceTypes[i], groupOf(AllServiceTypes[i]));
      services := services + [serviceData];
    }
  }

  /** `get_system_analytics` after its aggregations. `total_anonymous_requests` is the count
      of `None` among the distinct user ids, not a count of requests. */
  function SystemAnalyticsOf(overall: Option<OverallGroup>, services: seq<ServiceAnalytics>,
                             topUsers: seq<TopUser>): (a: SystemAnalytics)
    ensures a.services == services
    ensures overall.None? ==> a == NoSystemEvents(0, 0, services, [])
    ensures overall.Some? ==>
      && a.SystemTotals?
      && a.topUsers == topUsers
      && a.totalRequests == overall.value.totalRequests
      && a.totalAnonymousRequests == CountNone(overall.value.uniqueUsers)
      && a.totalUsers + a.totalAnonymousRequests == |overall.value.uniqueUsers|
  {
    match overall
    case None => NoSystemEvents(0, 0, services, [])
    case Some(g) =>
      var anonymous := CountNone(g.uniqueUsers);
      SystemTotals(g.totalRequests, |g.uniqueUsers| - anonymous, anonymous, services, topUsers,
                   g.startDate, g.endDate)
  }

  /** With `$addToSet` ids, `total_users` counts the distinct named users and
      `total_anonymous_requests` is at most 1, however many anonymous requests there were. */
  lemma SystemUserCounts(g: OverallGroup, services: seq<ServiceAnalytics>, topUsers: seq<TopUser>)
    requires forall i, j :: 0 <= i < j < |g.uniqueUsers| ==> g.uniqueUsers[i] != g.uniqueUsers[j]
    ensures SystemAnalyticsOf(Some(g), services, topUsers).totalUsers == |NamedIds(g.uniqueUsers)|
    ensures SystemAnalyticsOf(Some(g), services, topUsers).totalAnonymousRequests <= 1
  {
    DistinctIdsCount(g.uniqueUsers);
  }

  // ------------------------------------------------------------------ get_usage_stats

  /** A row of the usage aggregation: one (period, service) group. */
  datatype GroupRow = GroupRow(period: string, service: string, count: nat, successCount: nat)

  datatype Axis = ByPeriod | ByService

  function KeyOf(row: GroupRow, axis: Axis): string {
    match axis
    case ByPeriod => row.period
    case ByService => row.service
  }

  /** The per-key totals the first loop accumulates in `requests_by_period` (or
      `requests_by_service`), defined over the rows seen so far. */
  function Totals(rows: seq<GroupRow>, axis: Axis): Dict<string, int> {
    if rows == [] then []
    else
      var last := rows[|rows| - 1];
      AddTo(Totals(rows[..|rows| - 1], axis), KeyOf(last, axis), last.count)
  }

  /** The sum of `count` over all rows. */
  function TotalCount(rows: seq<GroupRow>): int {
    if rows == [] then 0 else TotalCount(rows[..|rows| - 1]) + rows[|rows| - 1].count
  }

  /** The sum of `count` over the rows with key `k` on `axis`. */
  function CountWhere(rows: seq<GroupRow>, axis: Axis, k: string): int {
    if rows == [] then 0
    else CountWhere(rows[..|rows| - 1], axis, k) + (if KeyOf(rows[|rows| - 1], axis) == k then rows[|rows| - 1].count else 0)
  }

  /** The sum of `success_count` over the rows of service `s`. */
  function SuccessWhere(rows: seq<GroupRow>, s: string): int {
    if rows == [] then 0
    else SuccessWhere(rows[..|rows| - 1], s) + (if rows[|rows| - 1].service == s then rows[|rows| - 1].successCount else 0)
  }

  /** A service's running totals in `success_rate_by_service`. */
  datatype Tally = Tally(total: int, success: int)

  /** One step of the tally: create `{total: 0, success: 0}` if absent, then add. */
  function Record(tallies: Dict<string, Tally>, row: GroupRow): Dict<string, Tally> {
    var t := GetOr(tallies, row.service, Tally(0, 0));
    Put(tallies, row.service, Tally(t.total + row.count, t.success + row.successCount))
  }

  function Tallies(rows: seq<GroupRow>): Dict<string, Tally> {
    if rows == [] then [] else Record(Tallies(rows[..|rows| - 1]), rows[|rows| - 1])
  }

  /** The second loop: every tally replaced in place by its success rate. */
  function Rates(tallies: Dict<string, Tally>): (rates: Dict<string, real>)
    ensures Keys(rates) == Keys(tallies)
  {
    seq(|tallies|, i requires 0 <= i < |tallies| =>
      (tallies[i].0, SuccessRate(tallies[i].1.success, tallies[i].1.total)))
  }

  datatype UsageStats = UsageStats(
    timeRange: TimeRange,
    userId: Option<string>,
    requestsByPeriod: Dict<string, int>,
    requestsByService: Dict<string, int>,
    successRateByService: Dict<string, real>)

  /** `get_usage_stats` after the aggregation: the two folds over the rows, then the rates. */
  method GetUsageStats(userId: Option<string>, range: TimeRange, results: seq<GroupRow>)
    returns (stats: UsageStats)
    ensures stats.timeRange == range && stats.userId == userId
    ensures stats.requestsByPeriod == Totals(results, ByPeriod)
    ensures stats.requestsByService == Totals(results, ByService)
    ensures stats.successRateByService == Rates(Tallies(results))
  {
    var requestsByPeriod, requestsByService, tallies := TallyRows(results);
    var rates := RatesOf(tallies);
    stats := UsageStats(range, userId, requestsByPeriod, requestsByService, rates);
  }

  /** The first loop of `get_usage_stats`: per-period and per-service totals and the
      per-service tallies, accumulated row by row. */
  method TallyRows(results: seq<GroupRow>)
    returns (requestsByPeriod: Dict<string, int>, requestsByService: Dict<string, int>, tallies: Dict<string, Tally>)
    ensures requestsByPeriod == Totals(results, ByPeriod)
    ensures requestsByService == Totals(results, ByService)
    ensures tallies == Tallies(results)
  {
    requestsByPeriod, requestsByService, tallies := [], [], [];
    for i := 0 to |results|
      invariant requestsByPeriod == Totals(results[..i], ByPeriod)
      invariant requestsByService == Totals(results[..i], ByService)
      invariant tallies == Tallies(results[..i])
    {
      var result := results[i];
      FoldStep(results, i);
      requestsByPeriod := AddTo(requestsByPeriod, result.period, result.count);
      requestsByService := AddTo(requestsByService, result.service, result.count);
      tallies := RecordRow(tallies, result);
    }
    assert results[..|results|] == results;
  }

  /** The tally step of the first loop: the service's entry is created as
      `{total: 0, success: 0}` when absent, then both counts are added to it. */
  method RecordRow(tallies: Dict<string, Tally>, result: GroupRow) returns (r: Dict<string, Tally>)
    ensures r == Record(tallies, result)
  {
    r := tallies;
    if !HasKey(r, result.service) {
      r := Put(r, result.service, Tally(0, 0));
    }
    RecordInSteps(tallies, r, result);
    var t := GetOr(r, result.service, Tally(0, 0));
    r := Put(r, result.service, Tally(t.total + result.count, t.success + result.successCount));
  }

  /** One more row extends each of the three folds by that row. */
  lemma FoldStep(results: seq<GroupRow>, i: nat)
    requires i < |results|
    ensures Totals(results[..i + 1], ByPeriod) == AddTo(Totals(results[..i], ByPeriod), results[i].period, results[i].count)
    ensures Totals(results[..i + 1], ByService) == AddTo(Totals(results[..i], ByService), results[i].service, results[i].count)
    ensures Tallies(results[..i + 1]) == Record(Tallies(results[..i]), results[i])
  {
    assert results[..i + 1][..i] == results[..i];
  }

  /** The second loop of `get_usage_stats`: each tally replaced by its success rate. */
  method RatesOf(tallies: Dict<string, Tally>) returns (rates: Dict<string, real>)
    ensures rates == Rates(tallies)
  {
    rates := [];
    for i := 0 to |tallies|
      invariant rates == Rates(tallies[..i])
    {
      assert tallies[..i + 1] == tallies[..i] + [tallies[i]];
      rates := rates + [(tallies[i].0, SuccessRate(tallies[i].1.success, tallies[i].1.total))];
    }
    assert tallies[..|tallies|] == tallies;
  }

  /** The loop body's first two steps (create the tally if absent, read it) leave the same
      reading and the same final assignment as on the dict before them, so the third step
      performs one `Record`. */
  lemma RecordInSteps(d: Dict<string, Tally>, created: Dict<string, Tally>, row: GroupRow)
    requires created == if !HasKey(d, row.service) then Put(d, row.service, Tally(0, 0)) else d
    ensures GetOr(created, row.service, Tally(0, 0)) == GetOr(d, row.service, Tally(0, 0))
    ensures var t := GetOr(created, row.service, Tally(0, 0));
      Put(created, row.service, Tally(t.total + row.count, t.success + row.successCount)) == Record(d, row)
  {
    if !HasKey(d, row.service) {
      PutGet(d, row.service, Tally(0, 0), row.service);
      var t := Tally(0, 0);
      PutTwice(d, row.service, Tally(0, 0), Tally(t.total + row.count, t.success + row.successCount));
    }
  }

  /** Creating an absent key and then assigning it is the same as assigning it once. */
  lemma PutTwice<K, V>(d: Dict<K, V>, k: K, v0: V, v1: V)
    requires !HasKey(d, k)
    ensures Put(Put(d, k, v0), k, v1) == Put(d, k, v1)
  {
    var r := Put(d, k, v0);
    assert r == d + [(k, v0)];
    assert r[|d|].0 == k;
    match Find(r, k)
    case None =>
    case Some(j) => assert j == |d|;
  }

  /** The totals hold, for each key, the sum of the counts of its rows. */
  lemma {:induction false} TotalsValue(rows: seq<GroupRow>, axis: Axis, k: string)
    ensures GetOr(Totals(rows, axis), k, 0) == CountWhere(rows, axis, k)
  {
    if rows != [] {
      var init := rows[..|rows| - 1];
      var last := rows[|rows| - 1];
      assert Totals(rows, axis) == AddTo(Totals(init, axis), KeyOf(last, axis), last.count);
      assert CountWhere(rows, axis, k) == CountWhere(init, axis, k) + (if KeyOf(last, axis) == k then last.count else 0);
      TotalsValue(init, axis, k);
      PutGet(Totals(init, axis), KeyOf(last, axis), GetOr(Totals(init, axis), KeyOf(last, axis), 0) + last.count, k);
    }
  }

  /** Adding under `key` adds `key` to the keys and keeps the others. */
  lemma AddToKeys(d: Dict<string, int>, key: string, c: int, k: string)
    ensures k in Keys(AddTo(d, key, c)) <==> k in Keys(d) || k == key
  {
    HasKeyInKeys(d, key);
    PutKeys(d, key, GetOr(d, key, 0) + c);
  }

  /** Some row carries `k` exactly when a row before the last does, or the last does. */
  lemma CarriedBeforeOrLast(rows: seq<GroupRow>, init: seq<GroupRow>, axis: Axis, k: string)
    requires rows != [] && init == rows[..|rows| - 1]
    ensures (exists i :: 0 <= i < |rows| && KeyOf(rows[i], axis) == k) <==>
      (exists i :: 0 <= i < |init| && KeyOf(init[i], axis) == k) || KeyOf(rows[|rows| - 1], axis) == k
  {
    if exists i :: 0 <= i < |rows| && KeyOf(rows[i], axis) == k {
      var i :| 0 <= i < |rows| && KeyOf(rows[i], axis) == k;
      if i < |init| {
        assert init[i] == rows[i];
      }
    }
    if exists i :: 0 <= i < |init| && KeyOf(init[i], axis) == k {
      var i :| 0 <= i < |init| && KeyOf(init[i], axis) == k;
      assert rows[i] == init[i];
    }
  }

  /** A key is present in the totals exactly when some row carries it. */
  lemma {:induction false} TotalsKeys(rows: seq<GroupRow>, axis: Axis, k: string)
    ensures k in Keys(Totals(rows, axis)) <==> exists i :: 0 <= i < |rows| && KeyOf(rows[i], axis) == k
  {
    if rows != [] {
      var init := rows[..|rows| - 1];
      var last := rows[|rows| - 1];
      TotalsKeys(init, axis, k);
      AddToKeys(Totals(init, axis), KeyOf(last, axis), last.count, k);
      CarriedBeforeOrLast(rows, init, axis, k);
    }
  }

  /** Every grouped count lands in exactly one period and one service: both totals sum to
      the total count. */
  lemma {:induction false} TotalsSumToCount(rows: seq<GroupRow>, axis: Axis)
    ensures Sum(Totals(rows, axis)) == TotalCount(rows)
  {
    if rows != [] {
      var last := rows[|rows| - 1];
      TotalsSumToCount(rows[..|rows| - 1], axis);
      SumAddTo(Totals(rows[..|rows| - 1], axis), KeyOf(last, axis), last.count);
    }
  }

  lemma PeriodAndServiceTotalsAgree(rows: seq<GroupRow>)
    ensures Sum(Totals(rows, ByPeriod)) == Sum(Totals(rows, ByService)) == TotalCount(rows)
  {
    TotalsSumToCount(rows, ByPeriod);
    TotalsSumToCount(rows, ByService);
  }

  /** Two dictionaries with the same key sequence agree on where each key sits. */
  lemma FindByKeys<K, V, W>(d: Dict<K, V>, e: Dict<K, W>, k: K)
    requires Keys(d) == Keys(e)
    ensures Find(d, k) == Find(e, k)
  {
    assert forall i :: 0 <= i < |d| ==> d[i].0 == Keys(d)[i] == e[i].0;
    match Find(d, k)
    case None =>
    case Some(i) =>
      match Find(e, k)
      case None =>
      case Some(j) => assert i == j;
  }

  /** `success_rate_by_service` and `requests_by_service` have the same keys in the same
      order. */
  lemma {:induction false} TalliesKeys(rows: seq<GroupRow>)
    ensures Keys(Tallies(rows)) == Keys(Totals(rows, ByService))
  {
    if rows != [] {
      var init := rows[..|rows| - 1];
      var last := rows[|rows| - 1];
      TalliesKeys(init);
      FindByKeys(Tallies(init), Totals(init, ByService), last.service);
      var t := GetOr(Tallies(init), last.service, Tally(0, 0));
      PutKeys(Tallies(init), last.service, Tally(t.total + last.count, t.success + last.successCount));
      PutKeys(Totals(init, ByService), last.service, GetOr(Totals(init, ByService), last.service, 0) + last.count);
    }
  }

  /** One tally step adds the row's counts to its own service and leaves the others alone. */
  lemma RecordGet(tallies: Dict<string, Tally>, row: GroupRow, s: string)
    ensures GetOr(Record(tallies, row), s, Tally(0, 0)) ==
      var t := GetOr(tallies, s, Tally(0, 0));
      if row.service == s then Tally(t.total + row.count, t.success + row.successCount) else t
  {
    var t := GetOr(tallies, row.service, Tally(0, 0));
    PutGet(tallies, row.service, Tally(t.total + row.count, t.success + row.successCount), s);
  }

  /** Each service's tally holds the sums of its rows' counts and success counts. */
  lemma {:induction false} TalliesValue(rows: seq<GroupRow>, s: string)
    ensures GetOr(Tallies(rows), s, Tally(0, 0)) == Tally(CountWhere(rows, ByService, s), SuccessWhere(rows, s))
  {
    if rows != [] {
      var init := rows[..|rows| - 1];
      TalliesValue(init, s);
      RecordGet(Tallies(init), rows[|rows| - 1], s);
    }
  }

  /** Each key of `success_rate_by_service` is a service of `requests_by_service`, and its
      value is that service's success percentage over all its rows. */
  lemma RatesPerService(rows: seq<GroupRow>, s: string)
    ensures HasKey(Rates(Tallies(rows)), s) <==> HasKey(Totals(rows, ByService), s)
    ensures HasKey(Rates(Tallies(rows)), s) ==>
      Get(Rates(Tallies(rows)), s) == Some(SuccessRate(SuccessWhere(rows, s), CountWhere(rows, ByService, s)))
  {
    var tallies := Tallies(rows);
    TalliesKeys(rows);
    TalliesValue(rows, s);
    FindByKeys(Rates(tallies), tallies, s);
    FindByKeys(tallies, Totals(rows, ByService), s);
  }
}
