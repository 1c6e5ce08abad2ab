/**
 * The HTTP application: the client address recorded for each request, the
 * middleware that turns an unhandled handler error into a 500 response, and
 * the two built-in routes.
 */
module App {
  import opened Wrappers

  /** The characters Python's `str.strip()` removes (those for which `str.isspace()` holds). */
  predicate IsSpace(c: char)
  {
    || '\U{0009}' <= c <= '\U{000D}'
    || '\U{001C}' <= c <= '\U{0020}'
    || c == '\U{0085}' || c == '\U{00A0}' || c == '\U{1680}'
    || '\U{2000}' <= c <= '\U{200A}'
    || c == '\U{2028}' || c == '\U{2029}' || c == '\U{202F}' || c == '\U{205F}' || c == '\U{3000}'
  }

  predicate AllSpace(s: string)
  {
    forall k :: 0 <= k < |s| ==> IsSpace(s[k])
  }

  /**
   * The first element of `s` split on commas: the longest prefix without a
   * comma, which is all of `s` or stops just before its first comma.
   */
  function FirstSegment(s: string): (r: string)
    ensures r <= s
    ensures ',' !in r
    ensures r == s || s[|r|] == ','
  {
    if s == [] || s[0] == ',' then [] else [s[0]] + FirstSegment(s[1..])
  }

  /** `s` without its leading whitespace: a suffix of `s` that does not start with whitespace. */
  function StripLeading(s: string): (r: string)
    ensures |r| <= |s| && r == s[|s| - |r|..] && AllSpace(s[..|s| - |r|])
    ensures r == [] || !IsSpace(r[0])
  {
    if s == [] || !IsSpace(s[0]) then s
    else
      var r := StripLeading(s[1..]);
      var n := |s| - |r|;
      assert AllSpace(s[..n]) by {
        forall k | 0 <= k < n ensures IsSpace(s[..n][k]) {
          if k > 0 {
            assert s[..n][k] == s[1..][..n - 1][k - 1];
          }
        }
      }
      r
  }

  /** `s` without its trailing whitespace: a prefix of `s` that does not end with whitespace. */
  function StripTrailing(s: string): (r: string)
    ensures r <= s && AllSpace(s[|r|..])
    ensures r == [] || !IsSpace(r[|r| - 1])
  {
    if s == [] || !IsSpace(s[|s| - 1]) then s
    else
      var init := s[..|s| - 1];
      var r := StripTrailing(init);
      assert s[|r|..] == init[|r|..] + [s[|s| - 1]];
      r
  }

  /** `r` is the run of `s` starting at `i`, with only whitespace outside it. */
  predicate RunWithin(s: string, i: nat, r: string)
  {
    && i + |r| <= |s|
    && r == s[i..i + |r|]
    && AllSpace(s[..i])
    && AllSpace(s[i + |r|..])
  }

  /**
   * `s` with its leading and trailing whitespace removed: a run of `s`
   * whose outside is all whitespace and whose ends are not.
   */
  function Strip(s: string): (r: string)
    ensures exists i: nat :: RunWithin(s, i, r)
    ensures r == [] || (!IsSpace(r[0]) && !IsSpace(r[|r| - 1]))
  {
    var lead := StripLeading(s);
    var r := StripTrailing(lead);
    var i := |s| - |lead|;
    assert r == s[i..i + |r|];
    assert s[i + |r|..] == lead[|r|..];
    assert RunWithin(s, i, r);
    r
  }

  /** The peer address of the connection. */
  datatype Address = Address(host: string, port: int)

  /** What the middleware reads from a request. */
  datatype Request = Request(
    httpMethod: string,
    path: string,
    forwardedFor: Option<string>,
    client: Option<Address>)

  /**
   * The address recorded for a request: the first `X-Forwarded-For` entry,
   * stripped, when the header is present and non-empty; else the client's
   * host; else none.
   */
  function ClientIp(request: Request): (ip: Option<string>)
    ensures request.forwardedFor.Some? && request.forwardedFor.value != "" ==>
      ip == Some(Strip(FirstSegment(request.forwardedFor.value)))
    ensures (request.forwardedFor.None? || request.forwardedFor.value == "") ==>
      ip == if request.client.Some? then Some(request.client.value.host) else None
  {
    if request.forwardedFor.Some? && request.forwardedFor.value != "" then
      Some(Strip(FirstSegment(request.forwardedFor.value)))
    else if request.client.Some? then
      Some(request.client.value.host)
    else
      None
  }

  /** Stripping a comma-free string leaves it comma-free. */
  lemma StripKeepsCommaFree(s: string)
    requires ',' !in s
    ensures ',' !in Strip(s)
  {
  }

  /** An address taken from the forwarding header never contains a comma. */
  lemma ForwardedIpHasNoComma(request: Request)
    requires request.forwardedFor.Some? && request.forwardedFor.value != ""
    ensures ClientIp(request).Some? && ',' !in ClientIp(request).value
  {
  }

  /**
   * A header whose first entry is blank yields the empty address: the client
   * host is not consulted once the header is non-empty.
   */
  lemma BlankFirstEntryYieldsEmptyIp(host: string)
    ensures ClientIp(Request("GET", "/", Some(" ,10.0.0.1"), Some(Address(host, 80)))) == Some("")
  {
  }

  /** The bodies the model distinguishes. */
  datatype Body = EmptyBody | JsonDetail(detail: string) | Content(text: string)

  datatype Response = Response(status: nat, location: Option<string>, body: Body)

  /** An error a handler raised: a subclass of `Exception`, or one outside that hierarchy. */
  datatype Raised = ExceptionRaised(name: string) | BaseExceptionRaised(name: string)

  /** How the downstream handler finished. */
  datatype HandlerResult = Returned(response: Response) | Failed(error: Raised)

  /** The fields of the per-request log line the model keeps. */
  datatype RequestLog = RequestLog(ip: Option<string>, httpMethod: string, path: string, status: nat)

  /** What the middleware produces: a response and its log line, or an error it does not catch. */
  datatype MiddlewareResult = Handled(response: Response, log: RequestLog) | Escaped(error: Raised)

  const InternalServerError: Response := Response(500, None, JsonDetail("Internal Server Error"))

  /**
   * Wraps a request's handling: the handler's response passes through
   * unchanged, an `Exception` becomes a 500 response with an
   * "Internal Server Error" detail, and either way one log line records the
   * client address and the final status.
   */
  function LoggingMiddleware(request: Request, handler: HandlerResult): (result: MiddlewareResult)
    ensures handler.Returned? ==> result == Handled(handler.response, RequestLog(ClientIp(request), request.httpMethod, request.path, handler.response.status))
    ensures handler.Failed? && handler.error.ExceptionRaised? ==>
      result == Handled(InternalServerError, RequestLog(ClientIp(request), request.httpMethod, request.path, 500))
    ensures result.Escaped? <==> handler.Failed? && handler.error.BaseExceptionRaised?
    ensures result.Escaped? ==> result.error == handler.error
    ensures result.Handled? ==> result.log.ip == ClientIp(request) && result.log.status == result.response.status
  {
    var ip := ClientIp(request);
    match handler
    case Failed(BaseExceptionRaised(name)) => Escaped(BaseExceptionRaised(name))
    case Failed(ExceptionRaised(_)) =>
      Handled(InternalServerError, RequestLog(ip, request.httpMethod, request.path, InternalServerError.status))
    case Returned(response) =>
      Handled(response, RequestLog(ip, request.httpMethod, request.path, response.status))
  }

  /** `/` redirects to the interactive documentation. */
  function RedirectToDocs(): (r: Response)
    ensures r.status == 307 && r.location == Some("/docs")
  {
    Response(307, Some("/docs"), EmptyBody)
  }

  /** `/health` answers "no content". */
  function Health(): (r: Response)
    ensures r.status == 204 && r.body == EmptyBody
  {
    Response(204, None, EmptyBody)
  }

  /** Both routes' responses reach the client unchanged through the middleware. */
  lemma RoutesPassThroughMiddleware(request: Request)
    ensures LoggingMiddleware(request, Returned(RedirectToDocs())).response.location == Some("/docs")
    ensures LoggingMiddleware(request, Returned(Health())).log.status == 204
  {
  }
}
