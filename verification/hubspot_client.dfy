/** The HubSpot CRM v3 client: URL composition, request headers, the retry
    loop with its status classification and backoff, error-message
    extraction, and the parameter shaping of the deals call. The transport is
    an oracle giving, for each attempt number, either a network error or a
    response; time is integer milliseconds. */
module HubSpotClient {
  import opened Wrappers
  import opened Strings
  import opened Values

  const DefaultBaseUrl: string := "https://api.hubapi.com"
  const DefaultUserAgent: string := "hubspot-api-service/1.0"
  const DealsPath: string := "/crm/v3/objects/deals"
  const DefaultMaxRetries: int := 3
  const DefaultBackoffInitialMs: int := 800
  const DefaultBackoffMaxMs: int := 8000
  /** The jitter added to a backoff is this many milliseconds per unit of
      `attempt % 3`. */
  const JitterStepMs: int := 50

  /** The client's configuration. The base URL is kept as given; the
      constructor strips its trailing slashes (`NewClient`). */
  datatype Client = Client(accessToken: string, baseUrl: string, userAgent: string, maxRetries: int,
                           backoffInitialMs: int, backoffMaxMs: int)

  function NewClient(accessToken: string, baseUrl: string, userAgent: string, maxRetries: int,
                     backoffInitialMs: int, backoffMaxMs: int): (c: Client)
    ensures |c.baseUrl| <= |baseUrl| && c.baseUrl == baseUrl[..|c.baseUrl|]
    ensures |c.baseUrl| == 0 || c.baseUrl[|c.baseUrl| - 1] != '/'
    ensures forall i :: |c.baseUrl| <= i < |baseUrl| ==> baseUrl[i] == '/'
    ensures c.accessToken == accessToken && c.maxRetries == maxRetries
  {
    Client(accessToken, StripRight(baseUrl, '/'), userAgent, maxRetries, backoffInitialMs, backoffMaxMs)
  }

  /** The client built with every default. */
  function DefaultClient(accessToken: string): Client {
    NewClient(accessToken, DefaultBaseUrl, DefaultUserAgent, DefaultMaxRetries,
              DefaultBackoffInitialMs, DefaultBackoffMaxMs)
  }

  predicate IsAbsolute(pathOrUrl: string) {
    StartsWith(pathOrUrl, "http://") || StartsWith(pathOrUrl, "https://")
  }

  /** The URL a request goes to: an absolute URL unchanged, anything else
      appended to the base URL. */
  function ComposeUrl(c: Client, pathOrUrl: string): (url: string)
    ensures IsAbsolute(pathOrUrl) ==> url == pathOrUrl
    ensures !IsAbsolute(pathOrUrl) ==> |url| == |c.baseUrl| + |pathOrUrl| && url[|c.baseUrl|..] == pathOrUrl
  {
    if IsAbsolute(pathOrUrl) then pathOrUrl else c.baseUrl + pathOrUrl
  }

  /** A relative path lands right after the configured base URL less its
      trailing slashes, so `https://host/` and `/path` give one slash. */
  lemma RelativeUrlJoinsBase(accessToken: string, baseUrl: string, path: string)
    requires !IsAbsolute(path)
    ensures var c := NewClient(accessToken, baseUrl, DefaultUserAgent, DefaultMaxRetries,
                               DefaultBackoffInitialMs, DefaultBackoffMaxMs);
            var url := ComposeUrl(c, path);
            && url == c.baseUrl + path
            && baseUrl == c.baseUrl + baseUrl[|c.baseUrl|..]
            && (forall i :: 0 <= i < |baseUrl| - |c.baseUrl| ==> baseUrl[|c.baseUrl|..][i] == '/')
  {
    var c := NewClient(accessToken, baseUrl, DefaultUserAgent, DefaultMaxRetries,
                       DefaultBackoffInitialMs, DefaultBackoffMaxMs);
    assert baseUrl == baseUrl[..|c.baseUrl|] + baseUrl[|c.baseUrl|..];
  }

  /** The four request headers; the bearer token is the per-call override
      when it is truthy, the client's token otherwise. */
  function Headers(c: Client, overrideToken: Option<string>): (h: map<string, string>)
    ensures h.Keys == {"Authorization", "Content-Type", "Accept", "User-Agent"}
    ensures TruthyStr(overrideToken) ==> h["Authorization"] == "Bearer " + overrideToken.value
    ensures !TruthyStr(overrideToken) ==> h["Authorization"] == "Bearer " + c.accessToken
    ensures h["Content-Type"] == "application/json" && h["Accept"] == "application/json"
    ensures h["User-Agent"] == c.userAgent
  {
    var token := if TruthyStr(overrideToken) then overrideToken.value else c.accessToken;
    map["Authorization" := "Bearer " + token, "Content-Type" := "application/json",
        "Accept" := "application/json", "User-Agent" := c.userAgent]
  }

  // ---------------------------------------------------------------- backoff

  /** 2 to the power `n`. */
  function Pow2(n: nat): (r: nat)
    ensures r > n
  {
    if n == 0 then 1 else 2 * Pow2(n - 1)
  }

  lemma {:induction false} Pow2Monotone(m: nat, n: nat)
    requires m <= n
    ensures Pow2(m) <= Pow2(n)
    decreases n
  {
    if m < n {
      Pow2Monotone(m, n - 1);
    }
  }

  /** `min(backoff_max, backoff_initial * 2 ** (attempt - 1))`. */
  function BackoffBaseMs(c: Client, attempt: nat): int
    requires attempt >= 1
  {
    var grown := c.backoffInitialMs * Pow2(attempt - 1);
    if c.backoffMaxMs < grown then c.backoffMaxMs else grown
  }

  /** The backoff sleep: the capped exponential base plus a jitter of
      0, 50 or 100 ms. */
  function BackoffMs(c: Client, attempt: nat): (ms: int)
    requires attempt >= 1
    ensures ms - BackoffBaseMs(c, attempt) == JitterStepMs * (attempt % 3)
    ensures BackoffBaseMs(c, attempt) <= ms <= BackoffBaseMs(c, attempt) + 2 * JitterStepMs
  {
    BackoffBaseMs(c, attempt) + JitterStepMs * (attempt % 3)
  }

  /** The base never exceeds the cap, and never falls as attempts grow. */
  lemma BackoffCappedAndGrowing(c: Client, a: nat, b: nat)
    requires 1 <= a <= b && c.backoffInitialMs >= 0
    ensures BackoffBaseMs(c, a) <= c.backoffMaxMs
    ensures BackoffBaseMs(c, a) <= BackoffBaseMs(c, b)
  {
    Pow2Monotone(a - 1, b - 1);
    assert c.backoffInitialMs * Pow2(a - 1) <= c.backoffInitialMs * Pow2(b - 1);
  }

  /** Below the cap the base doubles from one attempt to the next. */
  lemma BackoffDoubles(c: Client, a: nat)
    requires a >= 1
    ensures BackoffBaseMs(c, a + 1) == if c.backoffMaxMs < 2 * (c.backoffInitialMs * Pow2(a - 1))
                                       then c.backoffMaxMs else 2 * (c.backoffInitialMs * Pow2(a - 1))
  {
    assert Pow2(a) == 2 * Pow2(a - 1);
    assert c.backoffInitialMs * Pow2(a) == 2 * (c.backoffInitialMs * Pow2(a - 1));
  }

  // --------------------------------------------------------- the transport

  datatype Response = Response(status: int, requestId: Option<string>, retryAfter: Option<string>,
                               body: Body, text: string)

  /** What one attempt of `session.request` gives. */
  datatype Attempt = NetworkError(message: string) | Answered(resp: Response)

  /** Parses a `Retry-After` header into milliseconds, or fails as `float()`
      would. */
  type SecondsParser = string -> Option<int>

  /** `_parse_retry_after`: no value for a missing or empty header or one
      that does not parse. */
  function ParseRetryAfter(header: Option<string>, parse: SecondsParser): (r: Option<int>)
    ensures !TruthyStr(header) ==> r == None
    ensures TruthyStr(header) ==> r == parse(header.value)
  {
    if !TruthyStr(header) then None else parse(header.value)
  }

  datatype ErrorKind = Unauthorized | Forbidden | NotFound | RateLimited | ServerFailure | Generic | Network

  /** A raised `HubSpotAPIError` of the given subclass. */
  datatype ApiError = ApiError(kind: ErrorKind, message: Value, status: Option<int>, requestId: Option<string>,
                               retryAfterMs: Option<int>)

  /** `payload.get("message") or payload.get("error") or resp.text`; a body
      that is not JSON gives the text, while JSON that is not an object has no
      `get` and raises `AttributeError`, which escapes the client. */
  function ErrorMessage(body: Body, text: string): (r: Result<Value, string>)
    ensures r.Failure? <==> body.Json? && !body.payload.Obj?
    ensures r.Success? ==> Truthy(r.value) || r.value == Str(text)
    ensures body.NotJson? ==> r == Success(Str(text))
    ensures r.Success? && body.Json? && Truthy(Get(body.payload.fields, "message", Null)) ==>
              r.value == body.payload.fields["message"]
    ensures r.Success? && body.Json? && !Truthy(Get(body.payload.fields, "message", Null))
              && Truthy(Get(body.payload.fields, "error", Null)) ==>
              r.value == body.payload.fields["error"]
    ensures r.Success? && body.Json? && !Truthy(Get(body.payload.fields, "message", Null))
              && !Truthy(Get(body.payload.fields, "error", Null)) ==>
              r.value == Str(text)
  {
    match body
    case NotJson => Success(Str(text))
    case Json(payload) =>
      if !payload.Obj? then Failure("AttributeError")
      else
        var m := Get(payload.fields, "message", Null);
        var e := Get(payload.fields, "error", Null);
        Success(if Truthy(m) then m else if Truthy(e) then e else Str(text))
  }

  /** How a request ended: the response, a client error, or an exception from
      outside the client's hierarchy. */
  datatype Outcome = Returned(resp: Response) | Raised(error: ApiError) | Crashed(message: string)

  /** `_raise_with_payload`. */
  function RaiseWith(kind: ErrorKind, resp: Response, retryAfterMs: Option<int>): (o: Outcome)
    ensures o.Raised? ==> o.error.kind == kind && o.error.status == Some(resp.status) &&
                          o.error.requestId == resp.requestId && o.error.retryAfterMs == retryAfterMs
    ensures o.Crashed? <==> ErrorMessage(resp.body, resp.text).Failure?
    ensures !o.Returned?
  {
    match ErrorMessage(resp.body, resp.text)
    case Failure(e) => Crashed(e)
    case Success(m) => Raised(ApiError(kind, m, Some(resp.status), resp.requestId, retryAfterMs))
  }

  /** What one attempt decides: stop with an outcome, or go again after a
      sleep, raising `failure` instead when the retries are used up. */
  datatype Verdict = Done(outcome: Outcome) | Again(failure: Outcome, sleepMs: int)

  predicate IsRetryable(a: Attempt) {
    a.NetworkError? || a.resp.status == 429 || 500 <= a.resp.status < 600
  }

  function NetworkFailure(c: Client, message: string): Outcome {
    Raised(ApiError(Network, Str("Network error after " + IntToString(c.maxRetries) + " retries: " + message),
                    None, None, None))
  }

  /** The error subclass `_request` raises for a status that is not 2xx. */
  function StatusKind(status: int): ErrorKind {
    if status == 401 then Unauthorized
    else if status == 403 then Forbidden
    else if status == 404 then NotFound
    else if status == 429 then RateLimited
    else if 500 <= status < 600 then ServerFailure
    else Generic
  }

  /** `o` is what `_raise_with_payload` gives for `resp` with the error kind
      and retry hint: the error with the payload's message, the status and
      the request id, or the escaping exception of a non-object JSON body. */
  predicate RaisesFor(o: Outcome, kind: ErrorKind, resp: Response, retryAfterMs: Option<int>) {
    && (o.Raised? || o.Crashed?)
    && (o.Crashed? <==> ErrorMessage(resp.body, resp.text).Failure?)
    && (o.Raised? ==> o.error == ApiError(kind, ErrorMessage(resp.body, resp.text).value, Some(resp.status),
                                          resp.requestId, retryAfterMs))
  }

  /** The status table of `_request`. */
  function Judge(c: Client, a: Attempt, attempt: nat, parse: SecondsParser): (v: Verdict)
    requires attempt >= 1
    ensures v.Again? <==> IsRetryable(a)
    ensures a.Answered? && 200 <= a.resp.status < 300 ==> v == Done(Returned(a.resp))
    ensures v.Done? && v.outcome.Returned? ==> a.Answered? && 200 <= a.resp.status < 300 && v.outcome.resp == a.resp
    ensures a.Answered? && !(200 <= a.resp.status < 300) && !IsRetryable(a) ==>
              v.Done? && RaisesFor(v.outcome, StatusKind(a.resp.status), a.resp, None)
    ensures v.Again? && a.Answered? ==>
              RaisesFor(v.failure, StatusKind(a.resp.status), a.resp,
                        if a.resp.status == 429 then ParseRetryAfter(a.resp.retryAfter, parse) else None)
    ensures v.Again? && a.NetworkError? ==> v.failure.Raised? && v.failure.error.kind == Network
    ensures v.Again? && a.Answered? && a.resp.status == 429 ==>
              var ra := ParseRetryAfter(a.resp.retryAfter, parse);
              v.sleepMs == (if ra.Some? && ra.value > 0 then ra.value else BackoffMs(c, attempt))
    ensures v.Again? && (a.NetworkError? || a.resp.status != 429) ==> v.sleepMs == BackoffMs(c, attempt)
  {
    match a
    case NetworkError(message) => Again(NetworkFailure(c, message), BackoffMs(c, attempt))
    case Answered(resp) =>
      if 200 <= resp.status < 300 then Done(Returned(resp))
      else if resp.status == 401 then Done(RaiseWith(Unauthorized, resp, None))
      else if resp.status == 403 then Done(RaiseWith(Forbidden, resp, None))
      else if resp.status == 404 then Done(RaiseWith(NotFound, resp, None))
      else if resp.status == 429 then
        var ra := ParseRetryAfter(resp.retryAfter, parse);
        Again(RaiseWith(RateLimited, resp, ra), if ra.Some? && ra.value > 0 then ra.value else BackoffMs(c, attempt))
      else if 500 <= resp.status < 600 then Again(RaiseWith(ServerFailure, resp, None), BackoffMs(c, attempt))
      else Done(RaiseWith(Generic, resp, None))
  }

  /** What the client does around the transport: one limiter acquire before
      each attempt, one sleep between attempts. */
  datatype Action = Acquire | Sleep(ms: int)

  datatype Exchange = Exchange(outcome: Outcome, actions: seq<Action>, attempts: nat)

  /** Attempt numbers count from one. */
  type AttemptNo = k: nat | k >= 1 witness 1

  /** The retry loop of `_request` over any per-attempt verdicts, from
      attempt `attempt` on: one acquire before each attempt, the verdict's
      sleep between two attempts, and at most `maxRetries + 1` attempts. */
  function RetryLoop(verdictAt: AttemptNo -> Verdict, maxRetries: int, attempt: AttemptNo): (x: Exchange)
    ensures x.attempts >= attempt
    decreases if maxRetries + 1 >= attempt then maxRetries + 1 - attempt else 0
  {
    match verdictAt(attempt)
    case Done(o) => Exchange(o, [Acquire], attempt)
    case Again(failure, ms) =>
      if attempt > maxRetries then Exchange(failure, [Acquire], attempt)
      else
        var rest := RetryLoop(verdictAt, maxRetries, attempt + 1);
        Exchange(rest.outcome, [Acquire, Sleep(ms)] + rest.actions, rest.attempts)
  }

  /** The status table applied to each attempt's answer. */
  function Verdicts(c: Client, respond: nat -> Attempt, parse: SecondsParser): AttemptNo -> Verdict {
    (k: AttemptNo) => Judge(c, respond(k), k, parse)
  }

  /** The attempt loop of `_request` from attempt `attempt` on. */
  function Attempts(c: Client, respond: nat -> Attempt, parse: SecondsParser, attempt: nat): (x: Exchange)
    requires attempt >= 1
    ensures x.attempts >= attempt
  {
    RetryLoop(Verdicts(c, respond, parse), c.maxRetries, attempt)
  }

  /** Actions alternate acquire and sleep, starting and ending with an
      acquire. */
  predicate Alternating(actions: seq<Action>) {
    && |actions| % 2 == 1
    && forall i :: 0 <= i < |actions| ==> (actions[i].Acquire? <==> i % 2 == 0)
  }

  /** Putting an acquire and a sleep in front keeps the log alternating. */
  lemma AlternatingPrepend(ms: int, rest: seq<Action>)
    requires Alternating(rest)
    ensures Alternating([Acquire, Sleep(ms)] + rest)
  {
    var xs := [Acquire, Sleep(ms)] + rest;
    forall i | 2 <= i < |xs|
      ensures xs[i].Acquire? <==> i % 2 == 0
    {
      assert xs[i] == rest[i - 2];
      assert (i - 2) % 2 == i % 2;
    }
  }

  /** The loop stops after `maxRetries + 1` attempts at the latest, and its
      log holds one acquire per attempt and one sleep between two. */
  lemma {:induction false} LoopBounded(verdictAt: AttemptNo -> Verdict, maxRetries: int, attempt: AttemptNo)
    ensures var x := RetryLoop(verdictAt, maxRetries, attempt);
            && attempt <= x.attempts <= Max(attempt, maxRetries + 1)
            && |x.actions| == 2 * (x.attempts - attempt) + 1
    decreases if maxRetries + 1 >= attempt then maxRetries + 1 - attempt else 0
  {
    if verdictAt(attempt).Again? && attempt <= maxRetries {
      LoopBounded(verdictAt, maxRetries, attempt + 1);
    }
  }

  /** The loop's log alternates acquire and sleep. */
  lemma {:induction false} LoopAlternates(verdictAt: AttemptNo -> Verdict, maxRetries: int, attempt: AttemptNo)
    ensures Alternating(RetryLoop(verdictAt, maxRetries, attempt).actions)
    decreases if maxRetries + 1 >= attempt then maxRetries + 1 - attempt else 0
  {
    var v := verdictAt(attempt);
    if v.Again? && attempt <= maxRetries {
      LoopAlternates(verdictAt, maxRetries, attempt + 1);
      AlternatingPrepend(v.sleepMs, RetryLoop(verdictAt, maxRetries, attempt + 1).actions);
    }
  }

  /** Each attempt from `attempt` until the last asked to go again, and the
      log's sleep after it is the one its verdict asked for. */
  predicate SleepsMatch(verdictAt: AttemptNo -> Verdict, attempt: AttemptNo, x: Exchange) {
    forall k: AttemptNo :: attempt <= k < x.attempts ==>
      && verdictAt(k).Again?
      && 2 * (k - attempt) + 1 < |x.actions|
      && x.actions[2 * (k - attempt) + 1] == Sleep(verdictAt(k).sleepMs)
  }

  /** Every attempt before the last asked to go again, and the sleep after
      it is the one its verdict asked for. */
  lemma {:induction false} LoopSleeps(verdictAt: AttemptNo -> Verdict, maxRetries: int, attempt: AttemptNo)
    ensures SleepsMatch(verdictAt, attempt, RetryLoop(verdictAt, maxRetries, attempt))
    decreases if maxRetries + 1 >= attempt then maxRetries + 1 - attempt else 0
  {
    var v := verdictAt(attempt);
    if v.Again? && attempt <= maxRetries {
      LoopSleeps(verdictAt, maxRetries, attempt + 1);
      var x := RetryLoop(verdictAt, maxRetries, attempt);
      var rest := RetryLoop(verdictAt, maxRetries, attempt + 1);
      assert x.attempts == rest.attempts;
      assert x.actions == [Acquire, Sleep(v.sleepMs)] + rest.actions;
      forall k: AttemptNo | attempt <= k < x.attempts
        ensures verdictAt(k).Again?
        ensures 2 * (k - attempt) + 1 < |x.actions|
        ensures x.actions[2 * (k - attempt) + 1] == Sleep(verdictAt(k).sleepMs)
      {
        if k > attempt {
          assert x.actions[2 * (k - attempt) + 1] == rest.actions[2 * (k - (attempt + 1)) + 1];
        }
      }
      assert SleepsMatch(verdictAt, attempt, x);
    }
  }

  /** The last attempt decides: its own outcome when it settled the request,
      or its failure once the retries ran out. */
  lemma {:induction false} LoopLastDecides(verdictAt: AttemptNo -> Verdict, maxRetries: int, attempt: AttemptNo)
    ensures var x := RetryLoop(verdictAt, maxRetries, attempt);
            var last := verdictAt(x.attempts);
            && (last.Done? ==> x.outcome == last.outcome)
            && (last.Again? ==> x.attempts > maxRetries && x.outcome == last.failure)
    decreases if maxRetries + 1 >= attempt then maxRetries + 1 - attempt else 0
  {
    if verdictAt(attempt).Again? && attempt <= maxRetries {
      LoopLastDecides(verdictAt, maxRetries, attempt + 1);
    }
  }

  /** The loop makes at most `max_retries + 1` attempts (at least one), and
      its log holds one acquire per attempt and one sleep between two
      attempts. */
  lemma AttemptsBounded(c: Client, respond: nat -> Attempt, parse: SecondsParser, attempt: nat)
    requires attempt >= 1
    ensures var x := Attempts(c, respond, parse, attempt);
            && attempt <= x.attempts <= Max(attempt, c.maxRetries + 1)
            && |x.actions| == 2 * (x.attempts - attempt) + 1
  {
    LoopBounded(Verdicts(c, respond, parse), c.maxRetries, attempt);
  }

  /** The log alternates acquire and sleep, starting and ending with an
      acquire: every attempt waits for the limiter first. */
  lemma AcquireBeforeEachAttempt(c: Client, respond: nat -> Attempt, parse: SecondsParser, attempt: nat)
    requires attempt >= 1
    ensures Alternating(Attempts(c, respond, parse, attempt).actions)
  {
    LoopAlternates(Verdicts(c, respond, parse), c.maxRetries, attempt);
  }

  /** Every attempt before the last was retryable. */
  lemma RetriedOnlyRetryable(c: Client, respond: nat -> Attempt, parse: SecondsParser, attempt: nat)
    requires attempt >= 1
    ensures var x := Attempts(c, respond, parse, attempt);
            forall k :: attempt <= k < x.attempts ==> IsRetryable(respond(k))
  {
    var verdictAt := Verdicts(c, respond, parse);
    LoopSleeps(verdictAt, c.maxRetries, attempt);
    var x := Attempts(c, respond, parse, attempt);
    forall k | attempt <= k < x.attempts
      ensures IsRetryable(respond(k))
    {
      assert verdictAt(k) == Judge(c, respond(k), k, parse);
    }
  }

  /** Each attempt before the last is followed by the sleep its verdict asked
      for: the positive `Retry-After` of a 429, the backoff otherwise. */
  lemma SleepsFollowVerdicts(c: Client, respond: nat -> Attempt, parse: SecondsParser, attempt: nat)
    requires attempt >= 1
    ensures var x := Attempts(c, respond, parse, attempt);
            forall k :: attempt <= k < x.attempts ==>
              && Judge(c, respond(k), k, parse).Again?
              && 2 * (k - attempt) + 1 < |x.actions|
              && x.actions[2 * (k - attempt) + 1] == Sleep(Judge(c, respond(k), k, parse).sleepMs)
  {
    var verdictAt := Verdicts(c, respond, parse);
    LoopSleeps(verdictAt, c.maxRetries, attempt);
    var x := Attempts(c, respond, parse, attempt);
    forall k | attempt <= k < x.attempts
      ensures Judge(c, respond(k), k, parse).Again?
      ensures 2 * (k - attempt) + 1 < |x.actions|
      ensures x.actions[2 * (k - attempt) + 1] == Sleep(Judge(c, respond(k), k, parse).sleepMs)
    {
      assert verdictAt(k) == Judge(c, respond(k), k, parse);
    }
  }

  /** The last attempt decides: its own outcome when it settled the request,
      or the failure it would raise once the retries ran out. */
  lemma LastAttemptDecides(c: Client, respond: nat -> Attempt, parse: SecondsParser, attempt: nat)
    requires attempt >= 1
    ensures var x := Attempts(c, respond, parse, attempt);
            var last := Judge(c, respond(x.attempts), x.attempts, parse);
            && (last.Done? ==> x.outcome == last.outcome)
            && (last.Again? ==> x.attempts > c.maxRetries && x.outcome == last.failure)
  {
    LoopLastDecides(Verdicts(c, respond, parse), c.maxRetries, attempt);
  }

  /** A request as sent: the composed URL, the headers, the query and what
      the loop did. */
  datatype Request = Request(url: string, headers: map<string, string>, params: map<string, Value>,
                             exchange: Exchange)

  /** `_request` for a method, path or URL, query, and token override. */
  function Send(c: Client, pathOrUrl: string, params: map<string, Value>, overrideToken: Option<string>,
                respond: nat -> Attempt, parse: SecondsParser): (r: Request)
    ensures r.url == ComposeUrl(c, pathOrUrl) && r.params == params
    ensures r.headers == Headers(c, overrideToken)
    ensures r.exchange == Attempts(c, respond, parse, 1)
  {
    Request(ComposeUrl(c, pathOrUrl), Headers(c, overrideToken), params, Attempts(c, respond, parse, 1))
  }

  /** A response that is neither 2xx nor retryable is raised after the first
      attempt with no sleep; a 2xx on the first attempt is returned the same
      way. */
  lemma FirstAttemptSettles(c: Client, respond: nat -> Attempt, parse: SecondsParser)
    requires !IsRetryable(respond(1))
    ensures var x := Attempts(c, respond, parse, 1);
            && x.attempts == 1 && x.actions == [Acquire]
            && (200 <= respond(1).resp.status < 300 ==> x.outcome == Returned(respond(1).resp))
            && (!(200 <= respond(1).resp.status < 300) ==>
                  RaisesFor(x.outcome, StatusKind(respond(1).resp.status), respond(1).resp, None))
  {
    assert Verdicts(c, respond, parse)(1) == Judge(c, respond(1), 1, parse);
  }

  // ------------------------------------------------------------ the deals call

  /** The query of `get_deals`: the page size clamped to [1, 100], archived
      deals excluded, and the cursor only when it is truthy. */
  function DealsParams(limit: int, after: Option<string>): (p: map<string, Value>)
    ensures "limit" in p && p["limit"].Int? && 1 <= p["limit"].i <= 100
    ensures 1 <= limit <= 100 ==> p["limit"] == Int(limit)
    ensures limit < 1 ==> p["limit"] == Int(1)
    ensures limit > 100 ==> p["limit"] == Int(100)
    ensures "archived" in p && p["archived"] == Str("false")
    ensures "after" in p <==> TruthyStr(after)
    ensures "after" in p ==> p["after"] == Str(after.value)
    ensures p.Keys <= {"limit", "archived", "after"}
  {
    var clamped := if limit < 1 then 1 else if limit > 100 then 100 else limit;
    var base := map["limit" := Int(clamped), "archived" := Str("false")];
    if TruthyStr(after) then base["after" := Str(after.value)] else base
  }

  /** The path of the deals call: the deals endpoint unless a truthy one is
      given. */
  function DealsPathOf(url: Option<string>): string {
    if TruthyStr(url) then url.value else DealsPath
  }

  /** What `get_deals` hands to `_request` as written: the base URL glued in
      front of the path or URL it was given. */
  function DealsTarget(c: Client, url: Option<string>): string {
    c.baseUrl + DealsPathOf(url)
  }

  /** `get_deals` as written: one request, whose decoded body is the result;
      an empty body gives `{}` and a body that is not JSON raises. */
  function GetDeals(c: Client, overrideToken: Option<string>, limit: int, after: Option<string>,
                    url: Option<string>, respond: nat -> Attempt, parse: SecondsParser): (r: (Request, Result<Value, string>))
    ensures r.0.params == DealsParams(limit, after)
    ensures r.0.url == ComposeUrl(c, DealsTarget(c, url))
    ensures !r.0.exchange.outcome.Returned? ==> r.1.Failure?
    ensures r.0.exchange.outcome.Returned? && r.0.exchange.outcome.resp.text == "" ==> r.1 == Success(Obj(map[]))
  {
    DealsCall(c, DealsTarget(c, url), overrideToken, limit, after, respond, parse)
  }

  /** The deals call on a given target. */
  function DealsCall(c: Client, target: string, overrideToken: Option<string>, limit: int, after: Option<string>,
                     respond: nat -> Attempt, parse: SecondsParser): (r: (Request, Result<Value, string>))
    ensures r.0 == Send(c, target, DealsParams(limit, after), overrideToken, respond, parse)
    ensures r.0.exchange.outcome.Returned? && r.0.exchange.outcome.resp.text != "" ==>
              (r.1.Success? <==> r.0.exchange.outcome.resp.body.Json?)
  {
    var req := Send(c, target, DealsParams(limit, after), overrideToken, respond, parse);
    var payload :=
      match req.exchange.outcome
      case Returned(resp) =>
        if resp.text == "" then Success(Obj(map[]))
        else (match resp.body
              case Json(v) => Success(v)
              case NotJson => Failure("JSONDecodeError"))
      case Raised(e) => Failure("HubSpotAPIError")
      case Crashed(m) => Failure(m);
    (req, payload)
  }

  /** The corrected deals call: the path or URL goes to `_request`
      unchanged, which composes it. */
  function GetDealsCorrected(c: Client, overrideToken: Option<string>, limit: int, after: Option<string>,
                             url: Option<string>, respond: nat -> Attempt, parse: SecondsParser): (r: (Request, Result<Value, string>))
    ensures r.0.params == DealsParams(limit, after)
  {
    DealsCall(c, DealsPathOf(url), overrideToken, limit, after, respond, parse)
  }

  /** The corrected call honours the documented contract for both kinds of
      `url`: an absolute URL is requested unchanged, a relative path is
      appended to the base; without a `url` it asks for the deals endpoint
      under the base. */
  lemma CorrectedDealsUrl(c: Client, overrideToken: Option<string>, limit: int, after: Option<string>,
                          url: Option<string>, respond: nat -> Attempt, parse: SecondsParser)
    ensures var r := GetDealsCorrected(c, overrideToken, limit, after, url, respond, parse);
            && (TruthyStr(url) && IsAbsolute(url.value) ==> r.0.url == url.value)
            && (TruthyStr(url) && !IsAbsolute(url.value) ==> r.0.url == c.baseUrl + url.value)
            && (!TruthyStr(url) ==> r.0.url == c.baseUrl + DealsPath)
  {
    assert !IsAbsolute(DealsPath) by {
      assert DealsPath[..7][0] == '/';
      assert DealsPath[..8][0] == '/';
    }
  }

  /** Gluing the base URL in front of a relative path yields an absolute URL,
      which `_request` then keeps as it is. */
  lemma GluedTargetIsComposedPath(c: Client, url: Option<string>)
    requires IsAbsolute(c.baseUrl)
    requires !IsAbsolute(DealsPathOf(url))
    ensures ComposeUrl(c, DealsTarget(c, url)) == ComposeUrl(c, DealsPathOf(url))
  {
    var t := DealsTarget(c, url);
    assert t[..|c.baseUrl|] == c.baseUrl;
    if StartsWith(c.baseUrl, "http://") {
      assert t[..7] == c.baseUrl[..7];
    } else {
      assert t[..8] == c.baseUrl[..8];
    }
  }

  /** For a relative path on a client with an absolute base URL the call as
      written and the corrected call send the same request. */
  lemma DealsAgreeOnRelativePaths(c: Client, overrideToken: Option<string>, limit: int, after: Option<string>,
                                  url: Option<string>, respond: nat -> Attempt, parse: SecondsParser)
    requires IsAbsolute(c.baseUrl)
    requires !IsAbsolute(DealsPathOf(url))
    ensures GetDeals(c, overrideToken, limit, after, url, respond, parse)
         == GetDealsCorrected(c, overrideToken, limit, after, url, respond, parse)
  {
    var t := DealsTarget(c, url);
    var p := DealsPathOf(url);
    GluedTargetIsComposedPath(c, url);
    var params := DealsParams(limit, after);
    assert Send(c, t, params, overrideToken, respond, parse) == Send(c, p, params, overrideToken, respond, parse);
  }

  /** The absolute URL the documentation allows is glued onto the base URL
      by the call as written (`GetDeals` sends to `ComposeUrl` of this
      target). */
  lemma AbsoluteDealsUrlIsMangled()
    ensures var c := DefaultClient("token");
            var u := "https://api.hubapi.com/crm/v3/objects/deals";
            && ComposeUrl(c, DealsTarget(c, Some(u))) == DefaultBaseUrl + u
            && ComposeUrl(c, DealsTarget(c, Some(u))) != u
  {
    var c := DefaultClient("token");
    assert DefaultBaseUrl[|DefaultBaseUrl| - 1] == 'm';
    assert StripRight(DefaultBaseUrl, '/') == DefaultBaseUrl;
    assert c.baseUrl == DefaultBaseUrl;
    var u := "https://api.hubapi.com/crm/v3/objects/deals";
    assert DealsPathOf(Some(u)) == u;
    var t := c.baseUrl + u;
    assert t[..8] == "https://";
    assert IsAbsolute(t);
    assert |t| != |u|;
  }

  /** `validate_credentials`: a minimal deals request whose body must decode;
      an unauthorized answer gives false and every other failure escapes. */
  function ValidateCredentials(c: Client, respond: nat -> Attempt, parse: SecondsParser): (r: Result<bool, string>)
    ensures var o := Send(c, DealsPath, map["limit" := Int(1)], None, respond, parse).exchange.outcome;
            && (r == Success(true) <==> o.Returned? && o.resp.body.Json?)
            && (r == Success(false) <==> o.Raised? && o.error.kind == Unauthorized)
  {
    var req := Send(c, DealsPath, map["limit" := Int(1)], None, respond, parse);
    match req.exchange.outcome
    case Returned(resp) => if resp.body.Json? then Success(true) else Failure("JSONDecodeError")
    case Raised(e) => if e.kind == Unauthorized then Success(false) else Failure("HubSpotAPIError")
    case Crashed(m) => Failure(m)
  }
}
