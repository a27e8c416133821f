/** The analytics dashboard page: the translation between the page's service names and the
    backend's, the zeroed answers that stand in for failed requests, and the figures the page
    derives for display (request counts, names, the last week, bar widths). */
module AnalyticsPage {
  import opened Outcomes
  import opened Text
  import opened Dicts

  const BackendToFrontend: map<string, string> :=
    map["llm_chat" := "chat", "text_to_image" := "image", "text_to_speech" := "speech"]

  const FrontendToBackend: map<string, string> :=
    map["chat" := "llm_chat", "image" := "text_to_image", "speech" := "text_to_speech"]

  /** The two name maps undo each other over the three services. */
  lemma NameMapsAreInverse()
    ensures forall b :: b in BackendToFrontend ==>
      BackendToFrontend[b] in FrontendToBackend && FrontendToBackend[BackendToFrontend[b]] == b
    ensures forall f :: f in FrontendToBackend ==>
      FrontendToBackend[f] in BackendToFrontend && BackendToFrontend[FrontendToBackend[f]] == f
    ensures BackendToFrontend.Keys == FrontendToBackend.Values && FrontendToBackend.Keys == BackendToFrontend.Values
  {
    assert BackendToFrontend.Keys == {"llm_chat", "text_to_image", "text_to_speech"};
    assert FrontendToBackend.Keys == {"chat", "image", "speech"};
    assert BackendToFrontend.Values == {"chat", "image", "speech"} by {
      assert BackendToFrontend["llm_chat"] == "chat" && BackendToFrontend["text_to_image"] == "image";
      assert BackendToFrontend["text_to_speech"] == "speech";
    }
    assert FrontendToBackend.Values == {"llm_chat", "text_to_image", "text_to_speech"} by {
      assert FrontendToBackend["chat"] == "llm_chat" && FrontendToBackend["image"] == "text_to_image";
      assert FrontendToBackend["speech"] == "text_to_speech";
    }
  }

  const DisplayNames: map<string, string> := map[
    "llm_chat" := "Chat", "text_to_image" := "Image Generation", "text_to_speech" := "Text to Speech",
    "chat" := "Chat", "image" := "Image Generation", "speech" := "Text to Speech"]

  /** The name shown for a service: its display name under either spelling, else the raw name. */
  function DisplayName(service: string): (shown: string)
    ensures service !in DisplayNames ==> shown == service
    ensures service in DisplayNames ==> shown in {"Chat", "Image Generation", "Text to Speech"}
    ensures service in DisplayNames ==> shown == DisplayNames[service]
  {
    if service in DisplayNames then DisplayNames[service] else service
  }

  /** A service is shown under one name whichever spelling the data uses. */
  lemma DisplayNameIgnoresSpelling()
    ensures forall f :: f in FrontendToBackend ==> DisplayName(f) == DisplayName(FrontendToBackend[f])
  {
    assert FrontendToBackend.Keys == {"chat", "image", "speech"};
  }

  /** One entry of the user's `services_used`: a name, or an object whose `service_type`
      may be missing (empty). */
  datatype ServiceUsed = Named(name: string) | Entry(serviceType: string)

  /** The backend name of the entry at `index`: the name, the `service_type`, else
      `service-{index}`. */
  function BackendName(entry: ServiceUsed, index: nat): (name: string)
    ensures entry.Named? ==> name == entry.name
    ensures entry.Entry? && entry.serviceType != "" ==> name == entry.serviceType
    ensures entry.Entry? && entry.serviceType == "" ==> StartsWith(name, "service-")
    ensures entry.Entry? && entry.serviceType == "" ==> name == "service-" + NatToString(index)
  {
    match entry
    case Named(name) => name
    case Entry(serviceType) =>
      if serviceType != "" then serviceType
      else
        var name := "service-" + NatToString(index);
        assert name[..8] == "service-";
        name
  }

  /** The key JavaScript uses for `backendToFrontend[name]`: the alias, or the text
      "undefined" for a name without one. */
  function AliasKey(backendName: string): string {
    if backendName in BackendToFrontend then BackendToFrontend[backendName] else "undefined"
  }

  /** The requests shown for a service: the count under its backend name, else (when that
      is missing or zero) the count under its alias, else 0. */
  function RequestCount(byService: Dict<string, int>, backendName: string): (count: int)
    ensures count == GetOr(byService, backendName, 0) || count == GetOr(byService, AliasKey(backendName), 0) || count == 0
    ensures GetOr(byService, backendName, 0) != 0 ==> count == GetOr(byService, backendName, 0)
    ensures GetOr(byService, backendName, 0) == 0 && GetOr(byService, AliasKey(backendName), 0) != 0 ==>
      count == GetOr(byService, AliasKey(backendName), 0)
  {
    var direct := GetOr(byService, backendName, 0);
    if direct != 0 then direct
    else GetOr(byService, AliasKey(backendName), 0)
  }

  /** A backend name's count is found under the page's name when the usage stats were keyed
      that way. */
  lemma CountFoundUnderFrontendName(byService: Dict<string, int>, frontendName: string, n: int)
    requires frontendName in FrontendToBackend && n != 0
    requires !HasKey(byService, FrontendToBackend[frontendName]) && Get(byService, frontendName) == Some(n)
    ensures RequestCount(byService, FrontendToBackend[frontendName]) == n
  {
    NameMapsAreInverse();
    var backend := FrontendToBackend[frontendName];
    assert Get(byService, backend) == None;
  }

  /** An entry of the system's per-service counts: a number, or an object whose
      `total_requests` may be missing (0). */
  datatype ServiceCount = Number(n: int) | Totals(totalRequests: int)

  function CountOf(c: ServiceCount): (count: int)
    ensures c.Number? ==> count == c.n
    ensures c.Totals? ==> count == c.totalRequests
  {
    match c
    case Number(n) => n
    case Totals(t) => t
  }

  /** The width, in percent, of a service's share of all requests; 0 when there are none. */
  function DistributionWidth(count: int, totalRequests: int): (width: real)
    ensures totalRequests == 0 ==> width == 0.0
    ensures totalRequests > 0 && 0 <= count <= totalRequests ==> 0.0 <= width <= 100.0
    ensures totalRequests != 0 ==> width * totalRequests as real == count as real * 100.0
  {
    if totalRequests != 0 then count as real / totalRequests as real * 100.0 else 0.0
  }

  datatype DayCount = DayCount(date: string, count: int)

  /** `daily.slice(-7)`: the last seven days, or all of them when there are fewer. */
  function LastWeek(daily: seq<DayCount>): (shown: seq<DayCount>)
    ensures |shown| == if |daily| < 7 then |daily| else 7
    ensures shown == daily[|daily| - |shown|..]
  {
    if |daily| <= 7 then daily else daily[|daily| - 7..]
  }

  /** The width, in percent, of a day's bar: ten points per request, capped at 100. */
  function BarWidth(count: int): (width: int)
    ensures width <= 100
    ensures count <= 10 ==> width == count * 10
    ensures count >= 10 ==> width == 100
  {
    if count * 10 < 100 then count * 10 else 100
  }

  datatype UserStats = UserStats(totalRequests: int, servicesUsed: seq<ServiceUsed>)
  datatype SystemStats = SystemStats(totalRequests: int, totalUsers: int, services: Dict<string, ServiceCount>)
  datatype UsageStats = UsageStats(daily: seq<DayCount>, byService: Dict<string, int>)
  datatype ServiceStats = ServiceStats(totalRequests: int, uniqueUsers: int)

  const NoUserStats := UserStats(0, [])
  const NoSystemStats := SystemStats(0, 0, [])
  const NoUsageStats := UsageStats([], [])
  const NoServiceStats := ServiceStats(0, 0)

  /** The page's names of the services, in the order they are requested. */
  const PageServices := ["chat", "image", "speech"]

  /** The page's state after loading. */
  class AnalyticsView {
    var userStats: Option<UserStats>
    var systemStats: Option<SystemStats>
    var usageStats: Option<UsageStats>
    var serviceStats: Dict<string, ServiceStats>
    var loading: bool

    constructor()
      ensures userStats == None && systemStats == None && usageStats == None && serviceStats == [] && loading
    {
      userStats := None;
      systemStats := None;
      usageStats := None;
      serviceStats := [];
      loading := true;
    }

    /** `loadAnalytics`: each failed request is replaced by a zeroed answer of the same
        shape. The per-service statistics are requested under the backend names and stored
        under the page's names. */
    method LoadAnalytics(user: Result<UserStats, string>, system: Result<SystemStats, string>,
                         usage: Result<UsageStats, string>, serviceAnswer: string -> Result<ServiceStats, string>)
      modifies this
      ensures userStats == Some(if user.Success? then user.value else NoUserStats)
      ensures systemStats == Some(if system.Success? then system.value else NoSystemStats)
      ensures usageStats == Some(if usage.Success? then usage.value else NoUsageStats)
      ensures Keys(serviceStats) == PageServices
      ensures forall k :: 0 <= k < |PageServices| ==>
        var answer := serviceAnswer(FrontendToBackend[PageServices[k]]);
        serviceStats[k].1 == if answer.Success? then answer.value else NoServiceStats
      ensures !loading
    {
      loading := true;
      userStats := Some(if user.Success? then user.value else NoUserStats);
      systemStats := Some(if system.Success? then system.value else NoSystemStats);
      usageStats := Some(if usage.Success? then usage.value else NoUsageStats);
      var collected: Dict<string, ServiceStats> := [];
      for index := 0 to |PageServices|
        invariant |collected| == index
        invariant forall k :: 0 <= k < index ==> collected[k].0 == PageServices[k]
        invariant forall k :: 0 <= k < index ==>
          var answer := serviceAnswer(FrontendToBackend[PageServices[k]]);
          collected[k].1 == if answer.Success? then answer.value else NoServiceStats
      {
        var service := PageServices[index];
        var answer := serviceAnswer(FrontendToBackend[service]);
        assert !HasKey(collected, service) by {
          assert forall k :: 0 <= k < index ==> collected[k].0 != service;
        }
        collected := Put(collected, service, if answer.Success? then answer.value else NoServiceStats);
        assert collected[index] == (service, if answer.Success? then answer.value else NoServiceStats);
      }
      serviceStats := collected;
      loading := false;
    }
  }
}
