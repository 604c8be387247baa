/**
 * The browser's API client (`ApiClient` and the default `apiClient`): URL building,
 * header merging, the three interceptor chains, the retry loop around `fetch`, the
 * decoding of responses and errors, and the default interceptors that attach the
 * tenant and the token and clear the stored session on `UNAUTHORIZED`.
 *
 * `fetch` is the `Fetcher` parameter, given the attempt number, the URL and the request
 * options; `JSON.parse` is the `JsonParser` parameter (None when it throws). Timeouts
 * and the waits between attempts are kept as numbers only.
 */
module ApiRequest {

  import opened Wrappers
  import opened Json
  import opened Strs
  import Http
  import Auth

  type Headers = map<string, string>

  /** The `RequestInit` a call starts from: method, body and optional headers. */
  datatype Options = Options(verb: string, body: Option<string>, headers: Option<Headers>)

  /** The `RequestInit` handed to the request interceptors and `fetch`, headers merged. */
  datatype Init = Init(verb: string, body: Option<string>, headers: Headers)

  datatype Config = Config(headers: Option<Headers>, timeout: int, retries: int, showError: bool, showLoading: bool)

  /** A `Partial<RequestConfig>`: absent fields keep the base value. */
  datatype ConfigPatch = ConfigPatch(
    headers: Option<Headers>, timeout: Option<int>, retries: Option<int>, showError: Option<bool>, showLoading: Option<bool>)

  const NoPatch := ConfigPatch(None, None, None, None, None)

  /** `DEFAULT_CONFIG`: 10 s timeout, 3 retries, errors shown, no loading message. */
  const Defaults := Config(None, 10000, 3, true, false)

  /** `{ ...base, ...patch }`. */
  function MergeConfig(base: Config, patch: ConfigPatch): (c: Config)
    ensures c.retries == (if patch.retries.Some? then patch.retries.value else base.retries)
    ensures c.headers == (if patch.headers.Some? then patch.headers else base.headers)
  {
    Config(
      if patch.headers.Some? then patch.headers else base.headers,
      patch.timeout.GetOr(base.timeout), patch.retries.GetOr(base.retries),
      patch.showError.GetOr(base.showError), patch.showLoading.GetOr(base.showLoading))
  }

  /** `retries + 1` attempts, none when that is not positive. */
  function MaxAttempts(c: Config): nat {
    if c.retries + 1 > 0 then c.retries + 1 else 0
  }

  /** A client made without a config makes at most four attempts per request. */
  lemma DefaultAttempts(patch: ConfigPatch)
    requires patch.retries.None?
    ensures MaxAttempts(MergeConfig(MergeConfig(Defaults, NoPatch), patch)) == 4
  {
  }

  /**
   * `buildURL`: a URL starting with `http` is used as it is; any other is appended to
   * the base URL with exactly one `/` between them.
   */
  function BuildURL(baseURL: string, url: string): (u: string)
    ensures StartsWith(url, "http") ==> u == url
    ensures !StartsWith(url, "http") ==>
      u == baseURL + "/" + (if |url| > 0 && url[0] == '/' then url[1..] else url)
  {
    if StartsWith(url, "http") then url
    else baseURL + (if StartsWith(url, "/") then url else "/" + url)
  }

  /** The prefix test is textual: a relative path that happens to start with `http` is not prefixed. */
  lemma HttpPrefixedPathUntouched(baseURL: string)
    ensures BuildURL(baseURL, "http-status") == "http-status"
  {
    assert "http-status"[..4] == "http";
  }

  const ContentType := "Content-Type"

  /**
   * The header merge: JSON content type by default, overridden by the call's headers,
   * overridden in turn by the config's headers.
   */
  function MergeHeaders(optionHeaders: Option<Headers>, configHeaders: Option<Headers>): (h: Headers)
    ensures h.Keys == {ContentType} + optionHeaders.GetOr(map[]).Keys + configHeaders.GetOr(map[]).Keys
    ensures forall k :: k in h ==>
      h[k] == if configHeaders.Some? && k in configHeaders.value then configHeaders.value[k]
              else if optionHeaders.Some? && k in optionHeaders.value then optionHeaders.value[k]
              else "application/json"
  {
    map[ContentType := "application/json"] + optionHeaders.GetOr(map[]) + configHeaders.GetOr(map[])
  }

  function Prepare(options: Options, config: Config): Init {
    Init(options.verb, options.body, MergeHeaders(options.headers, config.headers))
  }

  /** Interceptors applied in registration order, each to the previous one's output. */
  function Pipe<T>(fs: seq<T -> T>, x: T): T {
    if fs == [] then x else Pipe(fs[1..], fs[0](x))
  }

  /** One more interceptor at the end applies last. */
  lemma {:induction false} PipeAppend<T>(fs: seq<T -> T>, g: T -> T, x: T)
    ensures Pipe(fs + [g], x) == g(Pipe(fs, x))
  {
    if fs != [] {
      assert (fs + [g])[1..] == fs[1..] + [g];
      PipeAppend(fs[1..], g, fs[0](x));
    }
  }

  /** The `for ... of` loop that threads a value through the interceptors. */
  method RunInterceptors<T>(fs: seq<T -> T>, x: T) returns (y: T)
    ensures y == Pipe(fs, x)
  {
    y := x;
    var i := 0;
    while i < |fs|
      invariant 0 <= i <= |fs|
      invariant y == Pipe(fs[..i], x)
    {
      PipeAppend(fs[..i], fs[i], x);
      assert fs[..i + 1] == fs[..i] + [fs[i]];
      y := fs[i](y);
      i := i + 1;
    }
    assert fs[..|fs|] == fs;
  }

  /** What `fetch` hands back: the raw response as the client sees it. */
  datatype HttpResponse = HttpResponse(ok: bool, status: nat, text: string)

  /** The errors a request can end with. */
  datatype Failure =
    | RequestError(message: Json, code: Json, status: nat, details: Json)
    | TypeError(reason: string)
    | OtherError(reason: string)

  datatype FetchResult = Responded(response: HttpResponse) | Threw(error: Failure)

  type Fetcher = (nat, string, Init) -> FetchResult
  type JsonParser = string -> Option<Json>

  /**
   * A non-OK response becomes a `RequestError`: message from `error.message`, else
   * `message`, else `HTTP <status>`; code from `error.code`, else `HTTP_ERROR`; a body
   * that is not JSON stands for `{ message: text }`. A body that is JSON `null` makes the
   * property read itself throw a `TypeError`.
   */
  function DecodeFailure(r: HttpResponse, parse: JsonParser): (e: Failure)
    ensures parse(r.text) == Some(JNull) ==> e.TypeError?
    ensures parse(r.text) != Some(JNull) ==> e.RequestError? && e.status == r.status
    ensures parse(r.text).None? ==>
      (e.RequestError? && e.details == JObj(map["message" := JStr(r.text)]) && e.code == JStr("HTTP_ERROR"))
  {
    var data := match parse(r.text) case Some(j) => j case None => JObj(map["message" := JStr(r.text)]);
    if data.JNull? then TypeError("Cannot read properties of null")
    else
      var err := Field(data, "error");
      var errMessage := if err.Some? then Field(err.value, "message") else None;
      var errCode := if err.Some? then Field(err.value, "code") else None;
      var message :=
        if TruthyOpt(errMessage) then errMessage.value
        else if TruthyOpt(Field(data, "message")) then Field(data, "message").value
        else JStr("HTTP " + Decimal(r.status));
      RequestError(message, if TruthyOpt(errCode) then errCode.value else JStr("HTTP_ERROR"), r.status, data)
  }

  /** An OK body is the parsed JSON, or `{ success: true, data: text }` when it is not JSON. */
  function DecodeSuccess(r: HttpResponse, parse: JsonParser): (j: Json)
    ensures parse(r.text).Some? ==> j == parse(r.text).value
    ensures parse(r.text).None? ==> j == JObj(map["success" := JBool(true), "data" := JStr(r.text)])
  {
    parse(r.text).GetOr(JObj(map["success" := JBool(true), "data" := JStr(r.text)]))
  }

  /** The body the server's routes send for an error response. */
  function ErrorBody(e: Http.ApiError): Json {
    JObj(map["success" := JBool(false), "error" := JObj(map["code" := JStr(e.code), "message" := JStr(e.message)])])
  }

  /** A server error response decodes to a `RequestError` with the server's code and message. */
  lemma ServerErrorDecodes(e: Http.ApiError, r: HttpResponse, parse: JsonParser)
    requires parse(r.text) == Some(ErrorBody(e)) && e.code != "" && e.message != ""
    ensures DecodeFailure(r, parse) == RequestError(JStr(e.message), JStr(e.code), r.status, ErrorBody(e))
  {
  }

  /** A non-OK response whose body is `null` fails with a `TypeError`, which the retry loop treats as a network failure. */
  lemma NullErrorBodyIsTypeError(status: nat, parse: JsonParser)
    requires parse("null") == Some(JNull)
    ensures DecodeFailure(HttpResponse(false, status, "null"), parse).TypeError?
  {
  }

  /** One attempt's result before the error interceptors. */
  datatype Step = Done(data: Json) | Failed(error: Failure)

  /** One attempt: the response interceptors, then the status check and the decoding. */
  function AttemptStep(fetched: FetchResult, responseInterceptors: seq<HttpResponse -> HttpResponse>, parse: JsonParser): Step {
    match fetched
    case Threw(e) => Failed(e)
    case Responded(resp) =>
      var r := Pipe(responseInterceptors, resp);
      if !r.ok then Failed(DecodeFailure(r, parse)) else Done(DecodeSuccess(r, parse))
  }

  datatype Outcome = Resolved(data: Json) | Rejected(error: Failure)

  const GaveUp := OtherError("请求失败")

  /** The wait before the retry that follows failed attempt number `k` (from 1): `1000 * k` ms. */
  function Backoff(k: nat): nat {
    1000 * k
  }

  class ApiClient {
    var baseURL: string
    var defaultConfig: Config
    var requestInterceptors: seq<Init -> Init>
    var responseInterceptors: seq<HttpResponse -> HttpResponse>
    var errorInterceptors: seq<Failure -> Failure>

    constructor (baseURL: string, patch: ConfigPatch)
      ensures this.baseURL == baseURL && defaultConfig == MergeConfig(Defaults, patch)
      ensures requestInterceptors == [] && responseInterceptors == [] && errorInterceptors == []
    {
      this.baseURL := baseURL;
      defaultConfig := MergeConfig(Defaults, patch);
      requestInterceptors, responseInterceptors, errorInterceptors := [], [], [];
    }

    method AddRequestInterceptor(f: Init -> Init)
      modifies this`requestInterceptors
      ensures requestInterceptors == old(requestInterceptors) + [f]
    {
      requestInterceptors := requestInterceptors + [f];
    }

    method AddResponseInterceptor(f: HttpResponse -> HttpResponse)
      modifies this`responseInterceptors
      ensures responseInterceptors == old(responseInterceptors) + [f]
    {
      responseInterceptors := responseInterceptors + [f];
    }

    method AddErrorInterceptor(f: Failure -> Failure)
      modifies this`errorInterceptors
      ensures errorInterceptors == old(errorInterceptors) + [f]
    {
      errorInterceptors := errorInterceptors + [f];
    }

    /** Attempt number `k` (from 0) of a request, as the interceptors registered now shape it. */
    function Trial(k: nat, fullURL: string, options: Options, config: Config, fetch: Fetcher, parse: JsonParser): Step
      reads this
    {
      AttemptStep(fetch(k, fullURL, Pipe(requestInterceptors, Prepare(options, config))), responseInterceptors, parse)
    }

    /** A failure after the error interceptors. */
    function Processed(e: Failure): Failure
      reads this
    {
      Pipe(errorInterceptors, e)
    }

    /** Attempt `k` failed with what the error interceptors turn into a `TypeError`, so it is retried. */
    predicate Retried(k: nat, full: string, options: Options, c: Config, fetch: Fetcher, parse: JsonParser)
      reads this
    {
      Trial(k, full, options, c, fetch, parse).Failed? && Processed(Trial(k, full, options, c, fetch, parse).error).TypeError?
    }

    /** How an attempt settles the request when it is not retried. */
    function Verdict(step: Step): (r: Outcome)
      reads this
      ensures step.Done? ==> r == Resolved(step.data)
      ensures step.Failed? ==> r == Rejected(Processed(step.error))
    {
      match step
      case Done(data) => Resolved(data)
      case Failed(e) => Rejected(Processed(e))
    }

    /** One attempt: the request interceptors, the fetch, the response interceptors and the decoding. */
    method Attempt(k: nat, full: string, options: Options, c: Config, fetch: Fetcher, parse: JsonParser) returns (step: Step)
      ensures step == Trial(k, full, options, c, fetch, parse)
    {
      var init := RunInterceptors(requestInterceptors, Prepare(options, c));
      var fetched := fetch(k, full, init);
      if fetched.Responded? {
        var resp := RunInterceptors(responseInterceptors, fetched.response);
        if resp.ok {
          step := Done(DecodeSuccess(resp, parse));
        } else {
          step := Failed(DecodeFailure(resp, parse));
        }
      } else {
        step := Failed(fetched.error);
      }
    }

    /**
     * One pass of the retry loop: attempt `k` settles the request unless it is retried,
     * which it is only while attempts remain.
     */
    method Settle(k: nat, max: nat, full: string, options: Options, c: Config, fetch: Fetcher, parse: JsonParser)
      returns (settled: bool, r: Outcome)
      ensures settled <==> k + 1 >= max || !Retried(k, full, options, c, fetch, parse)
      ensures settled ==> r == Verdict(Trial(k, full, options, c, fetch, parse))
    {
      var step := Attempt(k, full, options, c, fetch, parse);
      if step.Done? {
        return true, Resolved(step.data);
      }
      var processed := RunInterceptors(errorInterceptors, step.error);
      settled := k + 1 >= max || !processed.TypeError?;
      r := Rejected(processed);
    }

    /**
     * The retry loop of `request` for a prepared URL and config: attempts are made while
     * they fail with a `TypeError` (after the error interceptors), up to `retries + 1` of
     * them; the first success resolves, and the first other failure, or the last one,
     * rejects. Before retry `k` the client waits `1000 * k` ms. With no attempt allowed it
     * rejects with a plain error.
     */
    method Retry(full: string, options: Options, c: Config, fetch: Fetcher, parse: JsonParser)
      returns (r: Outcome, attempts: nat, waits: seq<nat>)
      ensures attempts <= MaxAttempts(c) && (attempts == 0 <==> MaxAttempts(c) == 0)
      ensures attempts == 0 ==> r == Rejected(GaveUp) && waits == []
      ensures attempts > 0 ==> |waits| == attempts - 1
      ensures forall k :: 0 <= k < |waits| ==> waits[k] == Backoff(k + 1)
      ensures forall k :: 0 <= k < attempts - 1 ==> Retried(k, full, options, c, fetch, parse)
      ensures attempts > 0 ==>
        r == Verdict(Trial(attempts - 1, full, options, c, fetch, parse))
        && (attempts == MaxAttempts(c) || !Retried(attempts - 1, full, options, c, fetch, parse))
    {
      var max := MaxAttempts(c);
      var attempt: nat := 0;
      waits := [];
      while attempt < max
        invariant attempt < max || attempt == 0
        invariant |waits| == attempt
        invariant forall k :: 0 <= k < attempt ==> waits[k] == Backoff(k + 1)
        invariant forall k :: 0 <= k < attempt ==> Retried(k, full, options, c, fetch, parse)
        decreases max - attempt
      {
        var settled, outcome := Settle(attempt, max, full, options, c, fetch, parse);
        if settled {
          return outcome, attempt + 1, waits;
        }
        waits := waits + [Backoff(attempt + 1)];
        attempt := attempt + 1;
      }
      return Rejected(GaveUp), 0, [];
    }

    /** `request`: the retry loop over the built URL and the default config merged with the call's. */
    method Request(url: string, options: Options, patch: ConfigPatch, fetch: Fetcher, parse: JsonParser)
      returns (r: Outcome, attempts: nat, waits: seq<nat>)
      ensures var c := MergeConfig(defaultConfig, patch);
        attempts <= MaxAttempts(c) && (attempts == 0 <==> MaxAttempts(c) == 0)
      ensures attempts == 0 ==> r == Rejected(GaveUp) && waits == []
      ensures attempts > 0 ==> |waits| == attempts - 1
      ensures forall k :: 0 <= k < |waits| ==> waits[k] == Backoff(k + 1)
      ensures var c := MergeConfig(defaultConfig, patch);
        forall k :: 0 <= k < attempts - 1 ==> Retried(k, BuildURL(baseURL, url), options, c, fetch, parse)
      ensures attempts > 0 ==>
        var c := MergeConfig(defaultConfig, patch);
        var full := BuildURL(baseURL, url);
        r == Verdict(Trial(attempts - 1, full, options, c, fetch, parse))
        && (attempts == MaxAttempts(c) || !Retried(attempts - 1, full, options, c, fetch, parse))
    {
      r, attempts, waits := Retry(BuildURL(baseURL, url), options, MergeConfig(defaultConfig, patch), fetch, parse);
    }
  }

  /** `localStorage`. */
  type Storage = map<string, string>

  const TenantIdHeader := "x-tenant-id"
  const AuthorizationHeader := "Authorization"

  /** Local storage holds a parsable user whose `tenantId` is a non-empty string. */
  predicate StoresTenant(storage: Storage, parse: JsonParser) {
    "auth-user" in storage && storage["auth-user"] != "" && parse(storage["auth-user"]).Some?
    && Field(parse(storage["auth-user"]).value, "tenantId").Some?
    && Field(parse(storage["auth-user"]).value, "tenantId").value.JStr?
    && Field(parse(storage["auth-user"]).value, "tenantId").value != JStr("")
  }

  /**
   * The default tenant interceptor: a stored user whose `tenantId` is a non-empty string
   * adds `x-tenant-id`; a missing or unparsable user changes nothing.
   */
  function AttachTenant(storage: Storage, parse: JsonParser, init: Init): (i: Init)
    ensures i.verb == init.verb && i.body == init.body
    ensures forall k :: k in init.headers && k != TenantIdHeader ==> k in i.headers && i.headers[k] == init.headers[k]
    ensures TenantIdHeader in i.headers && TenantIdHeader !in init.headers ==>
      "auth-user" in storage && parse(storage["auth-user"]).Some?
      && Field(parse(storage["auth-user"]).value, "tenantId") == Some(JStr(i.headers[TenantIdHeader]))
      && i.headers[TenantIdHeader] != ""
    ensures StoresTenant(storage, parse) ==>
      TenantIdHeader in i.headers && Field(parse(storage["auth-user"]).value, "tenantId") == Some(JStr(i.headers[TenantIdHeader]))
    ensures !StoresTenant(storage, parse) ==> i == init
  {
    if "auth-user" in storage && storage["auth-user"] != "" then
      match parse(storage["auth-user"])
      case Some(user) =>
        (match Field(user, "tenantId")
         case Some(JStr(t)) => if t != "" then init.(headers := init.headers[TenantIdHeader := t]) else init
         case _ => init)
      case None => init
    else init
  }

  /** The default auth interceptor: a stored non-empty token is sent as `Bearer <token>`. */
  function AttachToken(storage: Storage, init: Init): (i: Init)
    ensures i.verb == init.verb && i.body == init.body
    ensures forall k :: k in init.headers && k != AuthorizationHeader ==> k in i.headers && i.headers[k] == init.headers[k]
    ensures "auth-token" in storage && storage["auth-token"] != "" ==>
      AuthorizationHeader in i.headers && i.headers[AuthorizationHeader] == Auth.BearerPrefix + storage["auth-token"]
    ensures !("auth-token" in storage && storage["auth-token"] != "") ==> i == init
  {
    if "auth-token" in storage && storage["auth-token"] != "" then
      init.(headers := init.headers[AuthorizationHeader := "Bearer " + storage["auth-token"]])
    else init
  }

  /** The server's `extractToken` reads back exactly the stored token from the header the client attaches. */
  lemma AttachedTokenExtracted(storage: Storage, init: Init, cookies: map<string, string>, path: string)
    requires "auth-token" in storage && storage["auth-token"] != ""
    ensures var h := AttachToken(storage, init).headers[AuthorizationHeader];
      Auth.ExtractToken(Http.Request(map["authorization" := h], cookies, path)) == Some(storage["auth-token"])
  {
    var h := Auth.BearerPrefix + storage["auth-token"];
    assert h[..|Auth.BearerPrefix|] == Auth.BearerPrefix;
    assert h[|Auth.BearerPrefix|..] == storage["auth-token"];
  }

  const SessionKeys: set<string> := {"auth-token", "auth-user", "refresh-token"}

  /** The stored-session effect of the default error interceptor (which returns the error as it is). */
  function ClearOnUnauthorized(storage: Storage, e: Failure): (s: Storage)
    ensures e.RequestError? && e.code == JStr("UNAUTHORIZED") ==>
      s.Keys == storage.Keys - SessionKeys && forall k :: k in s ==> s[k] == storage[k]
    ensures !(e.RequestError? && e.code == JStr("UNAUTHORIZED")) ==> s == storage
  {
    if e.RequestError? && e.code == JStr("UNAUTHORIZED") then storage - SessionKeys else storage
  }

  /**
   * A 401 from `withAuth` reaches the client as `UNAUTHORIZED`: the stored session is
   * dropped, and, not being a `TypeError`, the request is not retried.
   */
  lemma UnauthorizedDropsSession(storage: Storage, message: string, r: HttpResponse, parse: JsonParser)
    requires message != ""
    requires parse(r.text) == Some(ErrorBody(Http.ApiError("UNAUTHORIZED", message, Http.NoDetails)))
    ensures var e := DecodeFailure(r, parse);
      !e.TypeError? && (forall k :: k in SessionKeys ==> k !in ClearOnUnauthorized(storage, e))
  {
    ServerErrorDecodes(Http.ApiError("UNAUTHORIZED", message, Http.NoDetails), r, parse);
  }
}
