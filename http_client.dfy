/** The base HTTP client of the back end (backend/src/app/clients/base.py):
    the base URL and path joining, default headers and timeout folded into
    a request's keyword arguments, and the mapping of transport failures to
    `HttpClientError`. Sending the request is the transport's business: its
    outcome is an input. */
module HttpClient {
  import opened Wrappers
  import opened Text
  import Json

  /** A keyword argument of a request, as far as the client looks at it. */
  datatype Arg = NoneArg | Timeout(seconds: real) | Headers(h: map<string, string>) | Opaque(v: Json.Value)

  type Kwargs = map<string, Arg>

  /** What the transport did with a request: a response (the status check
      passed), a response whose status check raised, a timeout, or another
      request error. */
  datatype Outcome =
    | Ok(status: int, body: string)
    | StatusRaised(status: int, text: string)
    | TimedOut
    | RequestFailed(detail: string)

  datatype HttpClientError = HttpClientError(message: string, statusCode: Option<int>)

  class Client {
    const baseUrl: string
    const defaultTimeout: real
    const defaultHeaders: map<string, string>

    /** A base URL never ends with `/`; a missing or empty one is `""`. */
    constructor (baseUrl: Option<string>, defaultTimeout: real, defaultHeaders: Option<map<string, string>>)
      ensures baseUrl.None? || baseUrl == Some("") ==> this.baseUrl == ""
      ensures baseUrl.Some? ==> this.baseUrl <= baseUrl.value
      ensures baseUrl.Some? ==> forall i :: |this.baseUrl| <= i < |baseUrl.value| ==> baseUrl.value[i] == '/'
      ensures this.baseUrl == "" || this.baseUrl[|this.baseUrl| - 1] != '/'
      ensures this.defaultTimeout == defaultTimeout
      ensures this.defaultHeaders == if defaultHeaders.Some? then defaultHeaders.value else map[]
    {
      this.baseUrl := if baseUrl.Some? && baseUrl.value != "" then RStrip(baseUrl.value, '/') else "";
      this.defaultTimeout := defaultTimeout;
      this.defaultHeaders := if defaultHeaders.Some? then defaultHeaders.value else map[];
    }

    /** `_build_url`. */
    function BuildUrl(path: string): (url: string)
    {
      var p := LStrip(path, '/');
      if baseUrl != "" then baseUrl + "/" + p else p
    }

    /** `_merge_headers`: a fresh dict, the defaults overridden key by key. */
    function MergeHeaders(headers: Option<map<string, string>>): (merged: map<string, string>)
      ensures merged.Keys == defaultHeaders.Keys + (if headers.Some? then headers.value.Keys else {})
      ensures headers.Some? ==> forall k :: k in headers.value ==> merged[k] == headers.value[k]
      ensures forall k :: k in defaultHeaders && (headers.None? || k !in headers.value) ==> merged[k] == defaultHeaders[k]
    {
      if headers.Some? && headers.value != map[] then defaultHeaders + headers.value else defaultHeaders
    }

    /** The keyword arguments `_make_request` hands to the transport. */
    method PrepareKwargs(kwargs0: Kwargs) returns (kwargs: Kwargs)
      requires "headers" in kwargs0 ==> kwargs0["headers"].NoneArg? || kwargs0["headers"].Headers?
      ensures "timeout" in kwargs
      ensures kwargs["timeout"] == if "timeout" in kwargs0 then kwargs0["timeout"] else Timeout(defaultTimeout)
      ensures "headers" in kwargs0 ==> "headers" in kwargs && kwargs["headers"] == Headers(MergeHeaders(HeadersOf(kwargs0["headers"])))
      ensures "headers" !in kwargs0 ==> ("headers" in kwargs <==> defaultHeaders != map[])
      ensures "headers" !in kwargs0 && defaultHeaders != map[] ==> kwargs["headers"] == Headers(defaultHeaders)
      ensures forall k :: k in kwargs0 && k != "timeout" && k != "headers" ==> k in kwargs && kwargs[k] == kwargs0[k]
      ensures kwargs.Keys == kwargs0.Keys + {"timeout"} + (if defaultHeaders != map[] then {"headers"} else {})
    {
      kwargs := kwargs0;
      if "timeout" !in kwargs {
        kwargs := kwargs["timeout" := Timeout(defaultTimeout)];
      }
      if "headers" in kwargs {
        kwargs := kwargs["headers" := Headers(MergeHeaders(HeadersOf(kwargs["headers"])))];
      } else if defaultHeaders != map[] {
        kwargs := kwargs["headers" := Headers(defaultHeaders)];
      }
    }

    /** The `get`/`post`/`put`/`patch`/`delete` helpers always pass a
        `headers` argument, so what is sent is the merge of the defaults
        with the given headers. */
    lemma VerbHeaders(headers: Option<map<string, string>>, kwargs0: Kwargs, kwargs: Kwargs)
      requires "headers" !in kwargs0
      requires kwargs == kwargs0["headers" := if headers.Some? then Headers(headers.value) else NoneArg]
      ensures HeadersOf(kwargs["headers"]) == headers
      ensures MergeHeaders(HeadersOf(kwargs["headers"])) ==
              if headers.Some? then defaultHeaders + headers.value else defaultHeaders
    {
    }

    /** The URL is the base, one `/`, and the path without its leading
        slashes; there is never a doubled slash at the seam. */
    lemma BuildUrlSpec(path: string)
      requires baseUrl == "" || baseUrl[|baseUrl| - 1] != '/'
      ensures baseUrl == "" ==> BuildUrl(path) == LStrip(path, '/')
      ensures baseUrl != "" ==>
                && BuildUrl(path)[..|baseUrl|] == baseUrl
                && BuildUrl(path)[|baseUrl|] == '/'
                && BuildUrl(path)[|baseUrl| + 1..] == LStrip(path, '/')
                && (|BuildUrl(path)| > |baseUrl| + 1 ==> BuildUrl(path)[|baseUrl| + 1] != '/')
                && BuildUrl(path)[|baseUrl| - 1] != '/'
      ensures BuildUrl("/" + path) == BuildUrl(path)
    {
      var p := LStrip(path, '/');
      assert LStrip("/" + path, '/') == p by {
        assert ("/" + path)[1..] == path;
      }
      if baseUrl != "" {
        var u := baseUrl + "/" + p;
        assert u[..|baseUrl|] == baseUrl;
        assert u[|baseUrl| + 1..] == p;
      }
    }
  }

  /** The headers argument as `_merge_headers` receives it. */
  function HeadersOf(a: Arg): Option<map<string, string>>
    requires a.NoneArg? || a.Headers?
  {
    if a.Headers? then Some(a.h) else None
  }

  /** The `try`/`except` of `_make_request`. */
  function MapOutcome(outcome: Outcome, url: string): Result<(int, string), HttpClientError> {
    match outcome
    case Ok(status, body) => Success((status, body))
    case StatusRaised(status, text) =>
      Failure(HttpClientError("HTTP " + StatusText(status) + ": " + text, Some(status)))
    case TimedOut => Failure(HttpClientError("Request timeout: " + url, None))
    case RequestFailed(detail) => Failure(HttpClientError("Request error: " + detail, None))
  }

  function StatusText(status: int): string {
    if status < 0 then "-" + Dec(-status) else Dec(status)
  }

  /** A status error keeps its status code; timeouts and other request
      errors carry none. */
  lemma MapOutcomeSpec(outcome: Outcome, url: string)
    ensures MapOutcome(outcome, url).Success? <==> outcome.Ok?
    ensures outcome.StatusRaised? ==> MapOutcome(outcome, url).error.statusCode == Some(outcome.status)
    ensures MapOutcome(outcome, url).Failure? && MapOutcome(outcome, url).error.statusCode.Some? ==> outcome.StatusRaised?
    ensures outcome.TimedOut? ==> MapOutcome(outcome, url).error.message == "Request timeout: " + url
  {
  }
}
