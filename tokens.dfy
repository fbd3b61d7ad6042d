/**
 * The `/tokens` endpoint handler: `PostSession` and its error routing
 * (`writeAuthorizeError`, `forwardError`).
 *
 * The handler's effects are recorded as a trace of actions: log records and
 * the responses it writes. The outcomes of the library calls it makes (body
 * decoding, URL parsing, request construction, authorize-request parsing,
 * the orchestrator) are inputs. `fosite.ErrorToRFC6749Error` is an
 * uninterpreted function passed in as `toRFC`.
 */
module Tokens {
  import opened Wrappers
  import opened Errors
  import opened Fosite
  import Url
  import Configuration

  /** `http.StatusFound`. */
  const StatusFound := 302

  /** The body of `POST /tokens` (`SessionRequest`). */
  datatype SessionRequest = SessionRequest(clientID: string, subject: string, scope: string)

  /** What the handler does, in order. Only `LogError` writes no response. */
  datatype Action =
    | LogError(err: Error)                                  // x.LogError
    | WriteError(err: Error)                                // Writer().WriteError
    | Redirect(location: string, query: Url.Values, status: int) // http.Redirect to the URL with that query
    | WriteAuthorizeError(authErr: Option<Error>)           // OAuth2Provider().WriteAuthorizeError
    | WriteAuthorizeResponse(response: AuthorizeResponse)   // OAuth2Provider().WriteAuthorizeResponse
  {
    predicate WritesResponse() { !LogError? }
  }

  /** The number of responses a trace writes. */
  function ResponsesWritten(trace: seq<Action>): (n: nat)
    ensures n <= |trace|
    ensures n == 0 <==> forall i :: 0 <= i < |trace| ==> !trace[i].WritesResponse()
  {
    if trace == [] then 0
    else (if trace[0].WritesResponse() then 1 else 0) + ResponsesWritten(trace[1..])
  }

  /**
   * The RFC 6749 error query of `forwardError`: `error`, `error_description`
   * and the non-standard `error_hint` always, `error_debug` only when debug
   * sharing is on.
   */
  function ErrorQuery(rfErr: RFC6749Error, shareDebug: bool): (q: Url.Values)
    ensures q.Keys == {"error", "error_description", "error_hint"} + (if shareDebug then {"error_debug"} else {})
    ensures q["error"] == [rfErr.name]
    ensures q["error_description"] == [rfErr.description]
    ensures q["error_hint"] == [rfErr.hint]
    ensures "error_debug" in q <==> shareDebug
    ensures shareDebug ==> q["error_debug"] == [rfErr.debug]
  {
    var q := map["error" := [rfErr.name], "error_description" := [rfErr.description], "error_hint" := [rfErr.hint]];
    if shareDebug then Url.Add(q, "error_debug", rfErr.debug) else q
  }

  /**
   * `forwardError`: a 302 redirect to the configured error page (never to the
   * request's redirect URI) carrying the error query of the converted error.
   */
  function ForwardError(conf: Configuration.Provider, toRFC: Option<Error> -> RFC6749Error, err: Option<Error>): (a: Action)
    ensures a.Redirect? && a.status == StatusFound && a.location == conf.errorURL
    ensures a.query.Keys == {"error", "error_description", "error_hint"} + (if conf.shareOAuth2Debug then {"error_debug"} else {})
    ensures a.query["error"] == [toRFC(err).name]
    ensures a.query["error_description"] == [toRFC(err).description]
    ensures a.query["error_hint"] == [toRFC(err).hint]
    ensures "error_debug" in a.query <==> conf.shareOAuth2Debug
    ensures conf.shareOAuth2Debug ==> a.query["error_debug"] == [toRFC(err).debug]
  {
    Redirect(conf.errorURL, ErrorQuery(toRFC(err), conf.shareOAuth2Debug), StatusFound)
  }

  /**
   * `writeAuthorizeError`: exactly one response. Forwarded to the error page
   * when the request's redirect URI is not valid, otherwise written by the
   * protocol library; never both.
   */
  function WriteAuthorizeErrorActions(conf: Configuration.Provider, toRFC: Option<Error> -> RFC6749Error,
                                      ar: AuthorizeRequest, err: Option<Error>): (trace: seq<Action>)
    reads ar
    ensures |trace| == 1 && ResponsesWritten(trace) == 1
    ensures trace[0].Redirect? <==> !ar.redirectURIValid
    ensures trace[0].WriteAuthorizeError? <==> ar.redirectURIValid
    ensures !ar.redirectURIValid ==> trace[0] == ForwardError(conf, toRFC, err)
    ensures ar.redirectURIValid ==> trace[0] == WriteAuthorizeError(err)
  {
    if !ar.redirectURIValid then [ForwardError(conf, toRFC, err)] else [WriteAuthorizeError(err)]
  }

  /** Decoding, the placeholder request and the authorize-request parse all succeeded. */
  predicate PreludeSucceeds(decoded: Result<SessionRequest, Error>, urlParse: Option<Error>,
                            newRequest: Option<Error>, arErr: Option<Error>)
  {
    decoded.Success? && urlParse.None? && newRequest.None? && arErr.None?
  }

  /**
   * `PostSession` up to the placeholder request (lines 60-86): decode the
   * body, build the placeholder query from it, parse the placeholder URL and
   * build a request from it. `cont` says whether the handler goes on; when it
   * does not, `trace` is all it did.
   *
   * `decoded` is the JSON decoder's outcome, `urlParse` and `newRequest` the
   * errors (if any) of `url.Parse` and `http.NewRequest`. `initQuery` is the
   * query of the placeholder request.
   */
  method PrepareRequest(decoded: Result<SessionRequest, Error>, urlParse: Option<Error>, newRequest: Option<Error>)
    returns (trace: seq<Action>, initQuery: Url.Values, cont: bool)
    ensures cont <==> decoded.Success? && urlParse.None? && newRequest.None?
    ensures cont ==> trace == []
    // A body that does not decode: the error is written, nothing else happens.
    ensures decoded.Failure? ==> trace == [WriteError(WithStack(decoded.error))]
    ensures decoded.Success? ==>
      && "client_id" in initQuery && initQuery["client_id"] == [decoded.value.clientID]
      && "scope" in initQuery && initQuery["scope"] == [decoded.value.scope]
    // The placeholder request cannot be built: logged only, no response.
    ensures decoded.Success? && urlParse.Some? ==> trace == [LogError(urlParse.value)]
    ensures decoded.Success? && urlParse.None? && newRequest.Some? ==> trace == [LogError(newRequest.value)]
  {
    initQuery := map[];
    if decoded.Failure? {
      return [WriteError(WithStack(decoded.error))], initQuery, false;
    }
    var sr := decoded.value;
    initQuery := Url.Set(initQuery, "client_id", sr.clientID);
    initQuery := Url.Set(initQuery, "redirect_uri", "http://localhost:5000/@callback");
    initQuery := Url.Set(initQuery, "scope", sr.scope);
    initQuery := Url.Set(initQuery, "state", "foobar12345");
    initQuery := Url.Set(initQuery, "access_type", "offline");
    initQuery := Url.Set(initQuery, "response_type", "code");
    if urlParse.Some? {
      return [LogError(urlParse.value)], initQuery, false;
    }
    if newRequest.Some? {
      return [LogError(newRequest.value)], initQuery, false;
    }
    return [], initQuery, true;
  }

  /** The authorize request does not parse: the error is logged, then routed to the error responder. */
  function ParseFailed(conf: Configuration.Provider, toRFC: Option<Error> -> RFC6749Error,
                       ar: AuthorizeRequest, e: Error): (trace: seq<Action>)
    reads ar
    ensures trace == [LogError(e)] + WriteAuthorizeErrorActions(conf, toRFC, ar, Some(e))
    ensures ResponsesWritten(trace) == 1
  {
    var routed := WriteAuthorizeErrorActions(conf, toRFC, ar, Some(e));
    assert ResponsesWritten([LogError(e)] + routed) == ResponsesWritten(routed);
    [LogError(e)] + routed
  }

  /**
   * `PostSession` up to the call of the orchestrator (lines 60-93), as
   * written: the authorize request is parsed from the inbound request, so
   * its outcome `ar`, `arErr` is an input unrelated to the placeholder
   * request, which nothing reads.
   */
  method BeginSession(conf: Configuration.Provider, toRFC: Option<Error> -> RFC6749Error,
                      decoded: Result<SessionRequest, Error>, urlParse: Option<Error>, newRequest: Option<Error>,
                      ar: AuthorizeRequest, arErr: Option<Error>)
    returns (trace: seq<Action>, initQuery: Url.Values, cont: bool)
    ensures cont <==> PreludeSucceeds(decoded, urlParse, newRequest, arErr)
    ensures cont ==> trace == []
    ensures decoded.Failure? ==> trace == [WriteError(WithStack(decoded.error))]
    ensures decoded.Success? ==>
      && "client_id" in initQuery && initQuery["client_id"] == [decoded.value.clientID]
      && "scope" in initQuery && initQuery["scope"] == [decoded.value.scope]
    ensures decoded.Success? && urlParse.Some? ==> trace == [LogError(urlParse.value)]
    ensures decoded.Success? && urlParse.None? && newRequest.Some? ==> trace == [LogError(newRequest.value)]
    ensures decoded.Success? && urlParse.None? && newRequest.None? && arErr.Some? ==>
      trace == [LogError(arErr.value)] + WriteAuthorizeErrorActions(conf, toRFC, ar, arErr)
    ensures ResponsesWritten(trace) <= 1
  {
    trace, initQuery, cont := PrepareRequest(decoded, urlParse, newRequest);
    if !cont {
      return;
    }
    if arErr.Some? {
      return ParseFailed(conf, toRFC, ar, arErr.value), initQuery, false;
    }
  }

  /**
   * `PostSession` up to the call of the orchestrator as evidently intended:
   * the authorize request is parsed from the placeholder request built from
   * the body. `parse` is the parser's error (if any) for a given query.
   */
  method BeginSessionCorrected(conf: Configuration.Provider, toRFC: Option<Error> -> RFC6749Error,
                               decoded: Result<SessionRequest, Error>, urlParse: Option<Error>, newRequest: Option<Error>,
                               ar: AuthorizeRequest, parse: Url.Values -> Option<Error>)
    returns (trace: seq<Action>, initQuery: Url.Values, cont: bool)
    ensures decoded.Success? ==>
      && "client_id" in initQuery && initQuery["client_id"] == [decoded.value.clientID]
      && "scope" in initQuery && initQuery["scope"] == [decoded.value.scope]
    ensures cont <==> decoded.Success? && urlParse.None? && newRequest.None? && parse(initQuery).None?
    ensures cont ==> trace == []
    ensures decoded.Failure? ==> trace == [WriteError(WithStack(decoded.error))]
    ensures decoded.Success? && urlParse.Some? ==> trace == [LogError(urlParse.value)]
    ensures decoded.Success? && urlParse.None? && newRequest.Some? ==> trace == [LogError(newRequest.value)]
    // The parse outcome, and so the response, depends on the query built from the body.
    ensures decoded.Success? && urlParse.None? && newRequest.None? && parse(initQuery).Some? ==>
      trace == [LogError(parse(initQuery).value)] + WriteAuthorizeErrorActions(conf, toRFC, ar, parse(initQuery))
    ensures ResponsesWritten(trace) <= 1
  {
    trace, initQuery, cont := PrepareRequest(decoded, urlParse, newRequest);
    if !cont {
      return;
    }
    var arErr := parse(initQuery);
    if arErr.Some? {
      return ParseFailed(conf, toRFC, ar, arErr.value), initQuery, false;
    }
  }

  /**
   * The placeholder request is never used: two bodies that ask for different
   * scopes give different placeholder queries and the same response, because
   * the authorize request is parsed from the inbound request.
   */
  method PlaceholderRequestUnused() returns (q1: Url.Values, q2: Url.Values, t1: seq<Action>, t2: seq<Action>)
    ensures q1 != q2
    ensures t1 == t2
    ensures t1 == [LogError(Error(Other("invalid_scope"), false)), WriteAuthorizeError(Some(Error(Other("invalid_scope"), false)))]
  {
    var conf := Configuration.Provider("https://idp.example/", "opaque", false, "https://idp.example/error");
    var ar := new AuthorizeRequest("client", true);
    var bad := Some(Error(Other("invalid_scope"), false));
    var c;
    t1, q1, c := BeginSession(conf, ServerErrorRFC, Success(SessionRequest("client", "peter", "openid")), None, None, ar, bad);
    t2, q2, c := BeginSession(conf, ServerErrorRFC, Success(SessionRequest("client", "peter", "offline")), None, None, ar, bad);
    assert q1["scope"] != q2["scope"];
  }

  /**
   * With the placeholder request parsed, the body matters: a parser that
   * rejects one scope answers the two bodies differently.
   */
  method PlaceholderRequestParsed() returns (t1: seq<Action>, t2: seq<Action>)
    ensures t1 == [] && t2 != []
  {
    var conf := Configuration.Provider("https://idp.example/", "opaque", false, "https://idp.example/error");
    var ar := new AuthorizeRequest("client", true);
    var parse := (q: Url.Values) =>
      if "scope" in q && q["scope"] == ["offline"] then Some(Error(Other("invalid_scope"), false)) else None;
    var q, c;
    t1, q, c := BeginSessionCorrected(conf, ServerErrorRFC, Success(SessionRequest("client", "peter", "openid")), None, None, ar, parse);
    t2, q, c := BeginSessionCorrected(conf, ServerErrorRFC, Success(SessionRequest("client", "peter", "offline")), None, None, ar, parse);
  }

  /**
   * `PostSession` as written. At line 95 the short variable declaration
   * `response, nil := ...` declares a new variable named `nil` holding the
   * orchestrator's error, so `err != nil` compares the (nil) parse error
   * with it: the error branch is taken exactly when the orchestrator failed,
   * abort included, and it routes the parse error, which is nil, instead of
   * the orchestrator's error.
   *
   * `orchestrated` is the outcome of the orchestrator.
   */
  method PostSession(conf: Configuration.Provider, toRFC: Option<Error> -> RFC6749Error,
                     decoded: Result<SessionRequest, Error>, urlParse: Option<Error>, newRequest: Option<Error>,
                     ar: AuthorizeRequest, arErr: Option<Error>,
                     orchestrated: Result<AuthorizeResponse, Error>)
    returns (trace: seq<Action>)
    ensures decoded.Failure? ==> trace == [WriteError(WithStack(decoded.error))]
    ensures decoded.Success? && urlParse.Some? ==> trace == [LogError(urlParse.value)]
    ensures decoded.Success? && urlParse.None? && newRequest.Some? ==> trace == [LogError(newRequest.value)]
    ensures decoded.Success? && urlParse.None? && newRequest.None? && arErr.Some? ==>
      trace == [LogError(arErr.value)] + WriteAuthorizeErrorActions(conf, toRFC, ar, arErr)
    // Any orchestrator failure, an abort too, is routed with no error at all.
    ensures PreludeSucceeds(decoded, urlParse, newRequest, arErr) && orchestrated.Failure? ==>
      trace == WriteAuthorizeErrorActions(conf, toRFC, ar, None)
    ensures PreludeSucceeds(decoded, urlParse, newRequest, arErr) && orchestrated.Success? ==>
      trace == [WriteAuthorizeResponse(orchestrated.value)]
    ensures ResponsesWritten(trace) <= 1
  {
    var initQuery, cont;
    trace, initQuery, cont := BeginSession(conf, toRFC, decoded, urlParse, newRequest, ar, arErr);
    if !cont {
      return;
    }
    var err: Option<Error> := arErr;
    // `response, nil := HandleOauth2Request(...)`: `nil` is now the orchestrator's error.
    var shadowedNil: Option<Error> := if orchestrated.Failure? then Some(orchestrated.error) else None;
    if err != shadowedNil {
      trace := WriteAuthorizeErrorActions(conf, toRFC, ar, err);
      return;
    }
    trace := [WriteAuthorizeResponse(orchestrated.value)];
  }

  /**
   * `PostSession` as evidently intended: the orchestrator's own error is
   * checked; an abort means the consent subsystem has already answered, so
   * nothing more is written; any other error is routed with that error.
   */
  method PostSessionCorrected(conf: Configuration.Provider, toRFC: Option<Error> -> RFC6749Error,
                              decoded: Result<SessionRequest, Error>, urlParse: Option<Error>, newRequest: Option<Error>,
                              ar: AuthorizeRequest, arErr: Option<Error>,
                              orchestrated: Result<AuthorizeResponse, Error>)
    returns (trace: seq<Action>)
    ensures decoded.Failure? ==> trace == [WriteError(WithStack(decoded.error))]
    ensures decoded.Success? && urlParse.Some? ==> trace == [LogError(urlParse.value)]
    ensures decoded.Success? && urlParse.None? && newRequest.Some? ==> trace == [LogError(newRequest.value)]
    ensures decoded.Success? && urlParse.None? && newRequest.None? && arErr.Some? ==>
      trace == [LogError(arErr.value)] + WriteAuthorizeErrorActions(conf, toRFC, ar, arErr)
    ensures PreludeSucceeds(decoded, urlParse, newRequest, arErr) && orchestrated.Failure? && orchestrated.error.IsAbort() ==>
      trace == []
    ensures PreludeSucceeds(decoded, urlParse, newRequest, arErr) && orchestrated.Failure? && !orchestrated.error.IsAbort() ==>
      trace == WriteAuthorizeErrorActions(conf, toRFC, ar, Some(orchestrated.error))
    ensures PreludeSucceeds(decoded, urlParse, newRequest, arErr) && orchestrated.Success? ==>
      trace == [WriteAuthorizeResponse(orchestrated.value)]
    ensures ResponsesWritten(trace) <= 1
  {
    var initQuery, cont;
    trace, initQuery, cont := BeginSession(conf, toRFC, decoded, urlParse, newRequest, ar, arErr);
    if !cont {
      return;
    }
    match orchestrated
    case Failure(e) =>
      if !e.IsAbort() {
        trace := WriteAuthorizeErrorActions(conf, toRFC, ar, Some(e));
      }
    case Success(response) =>
      trace := [WriteAuthorizeResponse(response)];
  }

  /** The error conversion used by the two examples below. */
  function ServerErrorRFC(err: Option<Error>): RFC6749Error
  {
    RFC6749Error("server_error", "", "", "")
  }

  /**
   * The shadowed `nil` drops the orchestrator's error: with a valid redirect
   * URI and a failing orchestrator, the code as written asks the protocol
   * library to write an error response for a nil error.
   */
  method ShadowedNilDropsError() returns (asWritten: seq<Action>, corrected: seq<Action>)
    ensures asWritten == [WriteAuthorizeError(None)]
    ensures corrected == [WriteAuthorizeError(Some(Error(Other("server_error"), false)))]
  {
    var conf := Configuration.Provider("https://idp.example/", "opaque", false, "https://idp.example/error");
    var ar := new AuthorizeRequest("client", true);
    var body := Success(SessionRequest("client", "peter", "openid"));
    var failed := Failure(Error(Other("server_error"), false));
    asWritten := PostSession(conf, ServerErrorRFC, body, None, None, ar, None, failed);
    corrected := PostSessionCorrected(conf, ServerErrorRFC, body, None, None, ar, None, failed);
  }

  /**
   * An orchestrator abort is not told apart from a failure: the code as
   * written writes an error response although the consent subsystem has
   * already answered the request.
   */
  method AbortAnsweredTwice() returns (asWritten: seq<Action>, corrected: seq<Action>)
    ensures ResponsesWritten(asWritten) == 1 && asWritten == [WriteAuthorizeError(None)]
    ensures corrected == []
  {
    var conf := Configuration.Provider("https://idp.example/", "opaque", false, "https://idp.example/error");
    var ar := new AuthorizeRequest("client", true);
    var body := Success(SessionRequest("client", "peter", "openid"));
    var aborted := Failure(Error(AbortOAuth2Request, false));
    asWritten := PostSession(conf, ServerErrorRFC, body, None, None, ar, None, aborted);
    corrected := PostSessionCorrected(conf, ServerErrorRFC, body, None, None, ar, None, aborted);
  }
}
