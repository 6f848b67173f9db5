/**
 * The Home Assistant API as the sensor uses it: the two endpoints, the
 * request headers, which statuses count as success, and the bounded retry
 * that fetches the hub's configuration.
 */
module HubApi {
  import opened Wrappers

  const ApiBase := "http://supervisor/core/api"
  const StatesPrefix := ApiBase + "/states/"
  const BearerPrefix := "Bearer "

  /** `__get_api_url`: the state endpoint of one entity. */
  function ApiUrl(entityId: string): (url: string)
    ensures |url| == |StatesPrefix| + |entityId|
    ensures url[..|StatesPrefix|] == StatesPrefix && url[|StatesPrefix|..] == entityId
  {
    StatesPrefix + entityId
  }

  /** The configuration endpoint (`_get_HA_config`). */
  function ConfigUrl(): string {
    ApiBase + "/config"
  }

  /** `__get_api_headers`: bearer authorisation and a JSON body. */
  function ApiHeaders(apiToken: string): (h: map<string, string>)
    ensures h.Keys == {"Authorization", "Content-Type"}
    ensures h["Content-Type"] == "application/json"
  {
    map["Authorization" := BearerPrefix + apiToken, "Content-Type" := "application/json"]
  }

  /** Different entities are published at different URLs. */
  lemma ApiUrlInjective(a: string, b: string)
    requires ApiUrl(a) == ApiUrl(b)
    ensures a == b
  {
    assert a == ApiUrl(a)[|StatesPrefix|..];
    assert b == ApiUrl(b)[|StatesPrefix|..];
  }

  /** No entity's state endpoint is the configuration endpoint. */
  lemma ConfigUrlIsNoStateUrl(entityId: string)
    ensures ConfigUrl() != ApiUrl(entityId)
  {
    assert ConfigUrl()[|ApiBase| + 1] == 'c';
    assert ApiUrl(entityId)[|ApiBase| + 1] == 's';
  }

  /** The token can be read back from the Authorization header, so different tokens give different headers. */
  lemma HeadersCarryToken(apiToken: string)
    ensures ApiHeaders(apiToken)["Authorization"][..|BearerPrefix|] == BearerPrefix
    ensures ApiHeaders(apiToken)["Authorization"][|BearerPrefix|..] == apiToken
  {
  }

  /** `response.status_code in [200, 201]` */
  predicate IsSuccess(status: int) {
    status == 200 || status == 201
  }

  /** Latitude, longitude and time zone from the body of `GET /config`. */
  datatype HubConfig = HubConfig(latitude: real, longitude: real, timeZone: string)

  /** A reply to `GET /config`: its status and the body it would parse to. */
  datatype Reply = Reply(status: int, config: HubConfig)

  datatype ConfigError = ConfigUnavailable

  /** A successful fetch: how many GETs it took and the configuration obtained. */
  datatype Fetched = Fetched(attempts: nat, config: HubConfig)

  const MaxConfigAttempts: nat := 3

  /**
   * The config fetch from attempt `count` on, where `replies(i)` is the reply
   * to the i-th GET: it stops at the first success, and gives up after the
   * third attempt.
   */
  function FetchFrom(replies: nat -> Reply, count: nat): (r: Result<Fetched, ConfigError>)
    ensures r.Success? ==>
      && count < r.value.attempts <= MaxConfigAttempts
      && IsSuccess(replies(r.value.attempts - 1).status)
      && r.value.config == replies(r.value.attempts - 1).config
      && forall i: nat :: count <= i < r.value.attempts - 1 ==> !IsSuccess(replies(i).status)
    ensures r.Failure? <==> forall i: nat :: count <= i < MaxConfigAttempts ==> !IsSuccess(replies(i).status)
    decreases MaxConfigAttempts - count
  {
    if count >= MaxConfigAttempts then Failure(ConfigUnavailable)
    else if IsSuccess(replies(count).status) then Success(Fetched(count + 1, replies(count).config))
    else FetchFrom(replies, count + 1)
  }

  /** `_get_HA_config` as a value: the outcome and, on success, the attempts used. */
  function FetchConfig(replies: nat -> Reply): (r: Result<Fetched, ConfigError>)
    ensures r.Success? ==>
      && 1 <= r.value.attempts <= MaxConfigAttempts
      && IsSuccess(replies(r.value.attempts - 1).status)
      && r.value.config == replies(r.value.attempts - 1).config
    ensures r.Failure? <==> forall i: nat :: i < MaxConfigAttempts ==> !IsSuccess(replies(i).status)
  {
    FetchFrom(replies, 0)
  }

  /** The number of GET requests the config fetch makes: at most three. */
  function ConfigAttempts(replies: nat -> Reply): (n: nat)
    ensures 1 <= n <= MaxConfigAttempts
  {
    match FetchConfig(replies)
    case Success(f) => f.attempts
    case Failure(_) => MaxConfigAttempts
  }

  /**
   * When attempt i is the first successful one among the first three, the
   * fetch stops there and uses that reply.
   */
  lemma FetchConfigFirstSuccess(replies: nat -> Reply, i: nat)
    requires i < MaxConfigAttempts && IsSuccess(replies(i).status)
    requires forall j: nat :: j < i ==> !IsSuccess(replies(j).status)
    ensures FetchConfig(replies) == Success(Fetched(i + 1, replies(i).config))
  {
  }
}
