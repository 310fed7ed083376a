/** The API client the extraction loop actually fetches pages with: query
    shaping, the single retry on 429, and the connection test that aggregates
    token validation, account and usage lookups and a trial fetch. Every GET
    is an oracle answer: the server unreachable, or a reply. */
module ApiClient {
  import opened Wrappers
  import opened Strings
  import opened Values

  const DefaultBaseUrl: string := "https://api.hubspot_deals.com"
  /** The base URL and test delay the deals source builds its client with. */
  const SourceBaseUrl: string := "https://api.hubapi.com"
  const SourceTestDelayMs: int := 1000
  /** The most the API returns per page. */
  const MaxPageSize: int := 100
  const DataPath: string := "/crm/v3/objects/deals"
  const MePath: string := "/v1/me"
  const AccountPath: string := "/v1/account"

  datatype Client = Client(baseUrl: string, testDelayMs: int)

  function NewClient(baseUrl: string, testDelayMs: int): (c: Client)
    ensures |c.baseUrl| == 0 || c.baseUrl[|c.baseUrl| - 1] != '/'
    ensures |c.baseUrl| <= |baseUrl| && c.baseUrl == baseUrl[..|c.baseUrl|]
  {
    Client(StripRight(baseUrl, '/'), testDelayMs)
  }

  /** A reply: status, the headers the client reads, and the body. The
      headers are keyed by their lower-cased names, the way `requests`'
      case-insensitive header dictionary compares them, so every lookup
      below uses a lower-cased name. */
  datatype Reply = Reply(status: int, headers: map<string, string>, body: Body)

  /** One GET: the server unreachable (a `RequestException`), or a reply. */
  datatype Answer = Unreachable(message: string) | Got(reply: Reply)

  /** Extra keyword arguments that are never sent to the API. */
  predicate Forwarded(key: string) {
    !StartsWith(key, "_test_") && key != "scan_id"
  }

  /** The query of `get_data`: the page size capped at 100 (no lower bound),
      the cursor when truthy, then every forwarded keyword argument, which
      overrides what came before. */
  function BuildParams(limit: int, after: Option<string>, kwargs: map<string, Value>): (p: map<string, Value>)
    ensures forall k :: k in p <==> (k == "limit" || (k == "after" && TruthyStr(after)) || (k in kwargs && Forwarded(k)))
    ensures forall k :: k in kwargs && Forwarded(k) ==> p[k] == kwargs[k]
    ensures !("limit" in kwargs && Forwarded("limit")) ==>
              p["limit"] == Int(if limit < MaxPageSize then limit else MaxPageSize)
    ensures TruthyStr(after) && !("after" in kwargs && Forwarded("after")) ==> p["after"] == Str(after.value)
  {
    var base := map["limit" := Int(if limit < MaxPageSize then limit else MaxPageSize)];
    var withCursor := if TruthyStr(after) then base["after" := Str(after.value)] else base;
    var extra := map k | k in kwargs && Forwarded(k) :: kwargs[k];
    withCursor + extra
  }

  /** `Retry-After`, lower-cased. */
  const RetryAfterHeader: string := "retry-after"

  /** `int(response.headers.get('Retry-After', 1))`: one second when absent,
      an error when the header is not an integer. */
  function RetryAfterSeconds(headers: map<string, string>, parseInt: string -> Option<int>): (r: Result<int, string>)
    ensures RetryAfterHeader !in headers ==> r == Success(1)
    ensures RetryAfterHeader in headers ==>
              (r.Success? <==> parseInt(headers[RetryAfterHeader]).Some?) &&
              (r.Success? ==> r.value == parseInt(headers[RetryAfterHeader]).value)
  {
    if RetryAfterHeader !in headers then Success(1)
    else match parseInt(headers[RetryAfterHeader])
         case Some(n) => Success(n)
         case None => Failure("ValueError: invalid literal for int()")
  }

  /** What the client does: sleep, or send one GET. */
  datatype Action = Sleep(ms: int) | SendGet

  /** A `get_data` call: the URL and query sent, the actions taken, and the
      decoded page or the exception. */
  datatype Fetched = Fetched(url: string, params: map<string, Value>, headers: map<string, string>,
                             actions: seq<Action>, result: Result<map<string, Value>, string>)

  function AuthHeaders(token: string): (h: map<string, string>)
    ensures "Authorization" in h && h["Authorization"] == "Bearer " + token
  {
    map["Authorization" := "Bearer " + token, "Content-Type" := "application/json", "Accept" := "application/json"]
  }

  /** Python `len` is defined on these. */
  predicate HasLen(v: Value) {
    v.Str? || v.List? || v.Obj? || v.Instant?
  }

  /** The reply's page once `raise_for_status`, `response.json()` and the
      success log line (which calls `get` and `len` on the page) have run. */
  function ReadPage(reply: Reply): (r: Result<map<string, Value>, string>)
    ensures r.Success? <==>
              && !(400 <= reply.status < 600)
              && reply.body.Json? && reply.body.payload.Obj?
              && HasLen(Get(reply.body.payload.fields, "results", List([])))
              && Get(reply.body.payload.fields, "paging", Obj(map[])).Obj?
    ensures r.Success? ==> r.value == reply.body.payload.fields
  {
    if 400 <= reply.status < 600 then Failure("HTTPError")
    else match reply.body
         case NotJson => Failure("JSONDecodeError")
         case Json(v) =>
           if !v.Obj? then Failure("AttributeError")
           else if !HasLen(Get(v.fields, "results", List([]))) then Failure("TypeError")
           else if !Get(v.fields, "paging", Obj(map[])).Obj? then Failure("AttributeError")
           else Success(v.fields)
  }

  /** The configurable sleep before every `get_data`. */
  function TestDelay(c: Client): (d: seq<Action>)
    ensures CountGets(d) == 0
  {
    if c.testDelayMs > 0 then [Sleep(c.testDelayMs)] else []
  }

  /** `get_data`: the test delay, one GET, and on a 429 one sleep of
      `Retry-After` seconds and a second GET; the last reply must then pass
      `ReadPage`. */
  function GetData(c: Client, token: string, limit: int, after: Option<string>, kwargs: map<string, Value>,
                   send: nat -> Answer, parseInt: string -> Option<int>): (f: Fetched)
    ensures f.url == c.baseUrl + DataPath
    ensures f.params == BuildParams(limit, after, kwargs)
    ensures f.headers == AuthHeaders(token)
  {
    var delay := TestDelay(c);
    var url := c.baseUrl + DataPath;
    var params := BuildParams(limit, after, kwargs);
    var headers := AuthHeaders(token);
    match send(1)
    case Unreachable(m) => Fetched(url, params, headers, delay + [SendGet], Failure(m))
    case Got(first) =>
      if first.status != 429 then Fetched(url, params, headers, delay + [SendGet], ReadPage(first))
      else match RetryAfterSeconds(first.headers, parseInt)
           case Failure(e) => Fetched(url, params, headers, delay + [SendGet], Failure(e))
           case Success(secs) =>
             if secs < 0 then Fetched(url, params, headers, delay + [SendGet], Failure("ValueError: sleep length must be non-negative"))
             else
               var retried := delay + [SendGet, Sleep(secs * 1000), SendGet];
               match send(2)
               case Unreachable(m) => Fetched(url, params, headers, retried, Failure(m))
               case Got(second) => Fetched(url, params, headers, retried, ReadPage(second))
  }

  /** The number of GETs among the actions. */
  function CountGets(actions: seq<Action>): (n: nat)
    ensures n <= |actions|
    ensures n == 0 <==> forall i :: 0 <= i < |actions| ==> !actions[i].SendGet?
    ensures n == |actions| <==> forall i :: 0 <= i < |actions| ==> actions[i].SendGet?
  {
    if |actions| == 0 then 0 else (if actions[0].SendGet? then 1 else 0) + CountGets(actions[1..])
  }

  lemma {:induction false} CountGetsAppend(a: seq<Action>, b: seq<Action>)
    ensures CountGets(a + b) == CountGets(a) + CountGets(b)
  {
    if |a| > 0 {
      assert (a + b)[1..] == a[1..] + b;
      CountGetsAppend(a[1..], b);
    } else {
      assert a + b == b;
    }
  }

  /** Whether `get_data` sends a second GET: after a 429 whose `Retry-After`
      is a non-negative integer (one second when absent). */
  predicate Retries(first: Answer, parseInt: string -> Option<int>) {
    && first.Got? && first.reply.status == 429
    && RetryAfterSeconds(first.reply.headers, parseInt).Success?
    && RetryAfterSeconds(first.reply.headers, parseInt).value >= 0
  }

  /** The actions of `get_data`: the test delay, one GET, and when `Retries`
      holds a sleep of the full `Retry-After` and a second GET. */
  lemma GetDataActions(c: Client, token: string, limit: int, after: Option<string>, kwargs: map<string, Value>,
                       send: nat -> Answer, parseInt: string -> Option<int>)
    ensures var f := GetData(c, token, limit, after, kwargs, send, parseInt);
            f.actions == TestDelay(c) +
              if Retries(send(1), parseInt)
              then [SendGet, Sleep(RetryAfterSeconds(send(1).reply.headers, parseInt).value * 1000), SendGet]
              else [SendGet]
  {
  }

  /** At most two GETs, the second only when `Retries` holds. */
  lemma GetDataRetriesOnce(c: Client, token: string, limit: int, after: Option<string>, kwargs: map<string, Value>,
                           send: nat -> Answer, parseInt: string -> Option<int>)
    ensures var f := GetData(c, token, limit, after, kwargs, send, parseInt);
            && 1 <= CountGets(f.actions) <= 2
            && (CountGets(f.actions) == 2 <==> Retries(send(1), parseInt))
  {
    GetDataActions(c, token, limit, after, kwargs, send, parseInt);
    var tail := if Retries(send(1), parseInt)
                then [SendGet, Sleep(RetryAfterSeconds(send(1).reply.headers, parseInt).value * 1000), SendGet]
                else [SendGet];
    CountGetsAppend(TestDelay(c), tail);
    if Retries(send(1), parseInt) {
      assert tail[1..][1..] == [SendGet];
      assert CountGets(tail[1..]) == 1;
    } else {
      assert tail[1..] == [];
    }
  }

  /** A page comes back only from the last GET, and only as a dictionary that
      passed `ReadPage`. */
  lemma GetDataReadsLastReply(c: Client, token: string, limit: int, after: Option<string>, kwargs: map<string, Value>,
                              send: nat -> Answer, parseInt: string -> Option<int>)
    ensures var f := GetData(c, token, limit, after, kwargs, send, parseInt);
            var last := if Retries(send(1), parseInt) then send(2) else send(1);
            f.result.Success? <==> last.Got? && ReadPage(last.reply).Success? &&
                                   (last == send(1) ==> send(1).reply.status != 429)
    ensures var f := GetData(c, token, limit, after, kwargs, send, parseInt);
            var last := if Retries(send(1), parseInt) then send(2) else send(1);
            f.result.Success? ==> f.result == ReadPage(last.reply)
  {
  }

  /** The pages the extraction loop fetches: the source's client asked for
      20 records after the cursor, as a fetch function of the cursor. */
  function SourceFetch(token: string, pageSize: int, serve: Option<string> -> (nat -> Answer),
                       parseInt: string -> Option<int>): Option<string> -> Result<map<string, Value>, string> {
    (after: Option<string>) =>
      GetData(NewClient(SourceBaseUrl, SourceTestDelayMs), token, pageSize, after, map[], serve(after), parseInt).result
  }

  /** Each fetch the source makes waits the one-second test delay first and
      sends the cursor exactly when it is truthy. */
  lemma SourceFetchShape(token: string, after: Option<string>, send: nat -> Answer, parseInt: string -> Option<int>)
    ensures var f := GetData(NewClient(SourceBaseUrl, SourceTestDelayMs), token, 20, after, map[], send, parseInt);
            && f.actions[0] == Sleep(1000)
            && f.params["limit"] == Int(20)
            && ("after" in f.params <==> TruthyStr(after))
            && f.url == SourceBaseUrl + DataPath
  {
    var c := NewClient(SourceBaseUrl, SourceTestDelayMs);
    assert SourceBaseUrl[|SourceBaseUrl| - 1] == 'm';
    assert c.baseUrl == SourceBaseUrl;
  }

  /** `validate_token`: a 200 from the `/v1/me` endpoint; an unreachable
      server is an invalid token. */
  function ValidateToken(answer: Answer): (valid: bool)
    ensures valid <==> answer.Got? && answer.reply.status == 200
  {
    answer.Got? && answer.reply.status == 200
  }

  /** The rate-limit headers `get_api_usage` reports, by report key:
      `X-RateLimit-Daily`, `X-RateLimit-Daily-Remaining`,
      `X-RateLimit-Interval`, `X-RateLimit-Remaining` and
      `X-RateLimit-Reset`, lower-cased. */
  const UsageHeaders: map<string, string> := map[
    "daily_limit" := "x-ratelimit-daily",
    "daily_remaining" := "x-ratelimit-daily-remaining",
    "interval_limit" := "x-ratelimit-interval",
    "interval_remaining" := "x-ratelimit-remaining",
    "reset_timestamp" := "x-ratelimit-reset"]

  /** `get_api_usage`: on a 200, the rate-limit headers that are present and
      the time of the call; nothing otherwise. */
  function ApiUsage(answer: Answer, now: int): (r: Option<map<string, Value>>)
    ensures r.Some? <==> answer.Got? && answer.reply.status == 200
    ensures r.Some? ==> "timestamp" in r.value && r.value["timestamp"] == Instant(now)
    ensures r.Some? ==> forall k :: k in r.value && k != "timestamp" ==>
              k in UsageHeaders && UsageHeaders[k] in answer.reply.headers &&
              r.value[k] == Str(answer.reply.headers[UsageHeaders[k]])
    ensures r.Some? ==> forall k :: k in UsageHeaders && UsageHeaders[k] in answer.reply.headers ==> k in r.value
  {
    if answer.Got? && answer.reply.status == 200 then
      var present := map k | k in UsageHeaders && UsageHeaders[k] in answer.reply.headers
                             :: Str(answer.reply.headers[UsageHeaders[k]]);
      Some(present["timestamp" := Instant(now)])
    else None
  }

  /** `get_account_info`: the decoded body of a 200. An undecodable body counts
      as unreachable; a body that is not a dictionary makes the log line
      raise. */
  function AccountInfo(answer: Answer): (r: Result<Option<map<string, Value>>, string>)
    ensures r.Failure? <==> answer.Got? && answer.reply.status == 200 && answer.reply.body.Json? &&
                            !answer.reply.body.payload.Obj?
    ensures r.Success? && r.value.Some? ==>
              answer.Got? && answer.reply.status == 200 && answer.reply.body == Json(Obj(r.value.value))
  {
    match answer
    case Unreachable(_) => Success(None)
    case Got(reply) =>
      if reply.status != 200 then Success(None)
      else match reply.body
           case NotJson => Success(None)
           case Json(v) => if v.Obj? then Success(Some(v.fields)) else Failure("AttributeError")
  }

  /** What the server answers to each call of a connection test. */
  datatype Server = Server(me: Answer, account: Answer, usage: Answer, data: nat -> Answer)

  datatype Report = Report(tokenValid: bool, apiReachable: bool, dataAccessible: bool,
                           accountInfo: Option<map<string, Value>>, usageInfo: Option<map<string, Value>>,
                           error: Option<string>)

  /** `test_connection`. */
  function TestConnection(c: Client, token: string, server: Server, now: int,
                          parseInt: string -> Option<int>): (r: Report)
    ensures r.apiReachable == r.tokenValid
    ensures r.tokenValid == ValidateToken(server.me)
    ensures r.dataAccessible <==>
              r.tokenValid && r.error.None? &&
              GetData(c, token, 1, None, map[], server.data, parseInt).result.Success?
    ensures !r.tokenValid ==> r.accountInfo.None? && r.usageInfo.None? && r.error.None?
    ensures r.error.Some? <==> r.tokenValid && AccountInfo(server.account).Failure?
    ensures r.tokenValid && r.error.None? ==> r.usageInfo == ApiUsage(server.usage, now)
  {
    var valid := ValidateToken(server.me);
    if !valid then Report(false, false, false, None, None, None)
    else match AccountInfo(server.account)
         case Failure(e) => Report(true, true, false, None, None, Some(e))
         case Success(info) =>
           var usage := ApiUsage(server.usage, now);
           var data := GetData(c, token, 1, None, map[], server.data, parseInt);
           Report(true, true, data.result.Success?, info, usage, None)
  }

  /** A connection test with a valid token that reached the data reports it
      accessible exactly when a one-record fetch would have returned a
      page. */
  lemma ReachableDataIsAccessible(c: Client, token: string, server: Server, now: int,
                                  parseInt: string -> Option<int>)
    requires ValidateToken(server.me) && AccountInfo(server.account).Success?
    ensures TestConnection(c, token, server, now, parseInt).dataAccessible ==
            GetData(c, token, 1, None, map[], server.data, parseInt).result.Success?
    ensures TestConnection(c, token, server, now, parseInt).usageInfo.Some? <==>
            server.usage.Got? && server.usage.reply.status == 200
  {
  }
}
