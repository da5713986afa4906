/**
 * The request/response interception pair of the FileMaker Data API client
 * (src/services/request.service.js): a guard run on every outgoing axios
 * request configuration, and a normaliser run on every failed request that
 * reduces the failure to one canonical rejection.
 *
 * Promises are modelled by their settled value: `Ok` for a fulfilled
 * promise, `Err` for a rejected one.
 */
module RequestService {
  import opened Wrappers
  import opened JsStrings

  // ---------------------------------------------------------------------
  // Data model
  // ---------------------------------------------------------------------

  /** A JSON-like property value carried by a request configuration. */
  datatype Json =
    | JNull
    | JBool(b: bool)
    | JNum(n: int)
    | JStr(s: string)
    | JArr(items: seq<Json>)
    | JObj(fields: map<string, Json>)

  /** The properties of a plain JavaScript object. */
  type Fields = map<string, Json>

  /**
   * An axios request configuration: its `url`, the optional `params` and
   * `data` objects, and every other property (method, headers, timeout, ...).
   * The keys "url", "params" and "data" are never in `other`: those three
   * properties live in their own fields.
   */
  datatype Config = Config(url: string, params: Option<Fields>, data: Option<Fields>, other: Fields)

  /**
   * The `{code, message, expired?}` record: both the entries of a Data API
   * `messages` array and the errors the interceptors reject with.
   */
  datatype ErrorMessage = ErrorMessage(code: string, message: string, expired: Option<bool>)

  /**
   * The body of an HTTP response: a parsed JSON object with its `messages`,
   * or a value whose `typeof` is not 'object' (string, number, boolean,
   * undefined). Arrays and `null` are neither.
   */
  datatype Body = Obj(messages: seq<ErrorMessage>) | NotAnObject

  datatype HttpResponse = HttpResponse(status: int, body: Body)

  /**
   * The error axios hands to the response interceptor: its own code and
   * message, the path of the request that was sent, and the response if one
   * was received.
   */
  datatype AxiosError = AxiosError(code: string, message: string, requestPath: string, response: Option<HttpResponse>)

  /** What a request settles to after the response interceptor has run. */
  datatype Outcome = Fulfilled(response: HttpResponse) | Failed(error: AxiosError)

  /** A rejection reason: the untouched axios error, or a `{code, message}` record. */
  datatype Rejection = Transport(original: AxiosError) | Api(error: ErrorMessage)

  // ---------------------------------------------------------------------
  // Constants
  // ---------------------------------------------------------------------

  const RequiredScheme := "http"
  const RequestKey := "request"
  const BadGateway := 502
  const Unauthorized := 401
  const WpeMarker := "RCType=EmbeddedRCFileProcessor"
  const ExpiredTokenCode := "952"

  const SchemeRequiredError := ErrorMessage("1630", "The Data API Requires https or http", None)
  const UnavailableError := ErrorMessage("1630", "The Data API is currently unavailable", None)
  const WpeRejectedError := ErrorMessage("9", "FileMaker WPE rejected the request", None)

  // ---------------------------------------------------------------------
  // Request guard
  // ---------------------------------------------------------------------

  /**
   * The removal contract of `omit(obj, ['x.request'])` on the object found at
   * `x`: absence is kept, the key `request` is gone, and every other key keeps
   * its value.
   */
  predicate RequestRemoved(before: Option<Fields>, after: Option<Fields>)
  {
    && (after.Some? <==> before.Some?)
    && (after.Some? ==>
          && after.value.Keys == before.value.Keys - {RequestKey}
          && forall k :: k in after.value ==> after.value[k] == before.value[k])
  }

  /** Removes the `request` key from an optional object; a missing object stays missing. */
  function OmitRequest(fields: Option<Fields>): (r: Option<Fields>)
    ensures RequestRemoved(fields, r)
  {
    match fields
    case None => None
    case Some(m) => Some(m - {RequestKey})
  }

  /** `omit(config, ['params.request', 'data.request'])`. */
  function Sanitize(c: Config): (r: Config)
    ensures r.url == c.url && r.other == c.other
    ensures RequestRemoved(c.params, r.params) && RequestRemoved(c.data, r.data)
  {
    c.(params := OmitRequest(c.params), data := OmitRequest(c.data))
  }

  /**
   * `interceptRequest`: a configuration whose url does not start with
   * "http" is rejected with the fixed 1630 error; any other is sanitised.
   */
  function InterceptRequest(c: Config): (r: Result<Config, ErrorMessage>)
    ensures r.Ok? <==> |c.url| >= 4 && c.url[..4] == "http"
    ensures r.Err? ==> r.error == SchemeRequiredError
    ensures r.Ok? ==> r.value.url == c.url && r.value.other == c.other
    ensures r.Ok? ==> RequestRemoved(c.params, r.value.params) && RequestRemoved(c.data, r.value.data)
  {
    if StartsWith(c.url, RequiredScheme) then Ok(Sanitize(c))
    else Err(SchemeRequiredError)
  }

  /** The removal contract leaves no freedom: it determines the sanitised object. */
  lemma RequestRemovedDetermines(before: Option<Fields>, a1: Option<Fields>, a2: Option<Fields>)
    requires RequestRemoved(before, a1) && RequestRemoved(before, a2)
    ensures a1 == a2
  {
    if a1.Some? {
      assert a1.value.Keys == a2.value.Keys;
      assert forall k :: k in a1.value ==> a1.value[k] == a2.value[k];
      assert a1.value == a2.value;
    }
  }

  /** Any url with the prefix "http" passes the guard, "https://..." and "httpx:..." alike. */
  lemma HttpPrefixAccepted(c: Config, rest: string)
    requires c.url == RequiredScheme + rest
    ensures InterceptRequest(c) == Ok(Sanitize(c))
  {
  }

  /** A url without the prefix "http" is rejected, and no sanitised configuration comes out. */
  lemma NonHttpRejected(c: Config)
    requires !(|c.url| >= 4 && c.url[..4] == "http")
    ensures InterceptRequest(c) == Err(SchemeRequiredError)
  {
  }

  /** Sanitising twice is sanitising once, and a sanitised configuration passes the guard unchanged. */
  lemma {:induction false} GuardIdempotent(c: Config)
    ensures Sanitize(Sanitize(c)) == Sanitize(c)
    ensures InterceptRequest(c).Ok? ==> InterceptRequest(InterceptRequest(c).value) == InterceptRequest(c)
  {
    var s := Sanitize(c);
    RequestRemovedDetermines(s.params, OmitRequest(s.params), s.params);
    RequestRemovedDetermines(s.data, OmitRequest(s.data), s.data);
  }

  /** Missing `params`, `data` or `request` keys are tolerated: the configuration passes unchanged. */
  lemma AbsentRequestKeysTolerated(c: Config)
    requires c.params.None? || RequestKey !in c.params.value
    requires c.data.None? || RequestKey !in c.data.value
    requires StartsWith(c.url, RequiredScheme)
    ensures InterceptRequest(c) == Ok(c)
  {
    RequestRemovedDetermines(c.params, OmitRequest(c.params), c.params);
    RequestRemovedDetermines(c.data, OmitRequest(c.data), c.data);
  }

  // ---------------------------------------------------------------------
  // Response normaliser
  // ---------------------------------------------------------------------

  /** Branch 2: a bad gateway, or a body that is not an object. */
  predicate IsGatewayFailure(resp: HttpResponse)
  {
    resp.status == BadGateway || !resp.body.Obj?
  }

  /** Branch 3: an unauthorized response to an embedded-RC-file request. */
  predicate IsWpeRejection(e: AxiosError, resp: HttpResponse)
  {
    resp.status == Unauthorized && Includes(e.requestPath, WpeMarker)
  }

  /** The body holds a first message to read. */
  predicate HasFirstMessage(e: AxiosError)
  {
    e.response.Some? && e.response.value.body.Obj? && |e.response.value.body.messages| > 0
  }

  function FirstMessage(e: AxiosError): ErrorMessage
    requires HasFirstMessage(e)
  {
    e.response.value.body.messages[0]
  }

  /**
   * `messages[0]` is read only after branches 1-3 have been passed; this is
   * exactly the condition under which that read does not throw.
   */
  predicate FirstMessageDefined(e: AxiosError)
  {
    || e.response.None?
    || IsGatewayFailure(e.response.value)
    || IsWpeRejection(e, e.response.value)
    || HasFirstMessage(e)
  }

  /** `Object.assign(message, {expired: true})`: only the `expired` property changes. */
  function MarkExpired(m: ErrorMessage): (r: ErrorMessage)
    ensures r.code == m.code && r.message == m.message
    ensures r.expired == Some(true)
  {
    m.(expired := Some(true))
  }

  /** `handleResponseError`: the five branches, in order, first match wins. */
  function HandleResponseError(e: AxiosError): (r: Rejection)
    requires FirstMessageDefined(e)
    ensures r.Transport? <==> e.response.None?
    ensures r.Transport? ==> r.original == e
    ensures r.Api? ==>
              || r.error == UnavailableError
              || r.error == WpeRejectedError
              || (HasFirstMessage(e) && r.error == FirstMessage(e))
              || (HasFirstMessage(e) && r.error == MarkExpired(FirstMessage(e)))
  {
    if e.response.None? then Transport(e)
    else if IsGatewayFailure(e.response.value) then Api(UnavailableError)
    else if IsWpeRejection(e, e.response.value) then Api(WpeRejectedError)
    else if FirstMessage(e).code == ExpiredTokenCode then Api(MarkExpired(FirstMessage(e)))
    else Api(FirstMessage(e))
  }

  /** The response interceptor: identity on success, `handleResponseError` on failure. */
  function HandleResponse(o: Outcome): (r: Result<HttpResponse, Rejection>)
    requires o.Failed? ==> FirstMessageDefined(o.error)
    ensures r.Ok? <==> o.Fulfilled?
    ensures o.Fulfilled? ==> r.value == o.response
    ensures o.Failed? ==> r == Err(HandleResponseError(o.error))
  {
    match o
    case Fulfilled(resp) => Ok(resp)
    case Failed(e) => Err(HandleResponseError(e))
  }

  // ---------------------------------------------------------------------
  // Reference classification: each row's own condition, ranked
  // ---------------------------------------------------------------------

  /** The five kinds of failure, in the order they are checked. */
  datatype Branch = NoResponse | GatewayFailure | WpeRejection | ExpiredToken | ResourceError
  {
    function Rank(): nat
    {
      match this
      case NoResponse => 0
      case GatewayFailure => 1
      case WpeRejection => 2
      case ExpiredToken => 3
      case ResourceError => 4
    }
  }

  /** The condition of one row, read on its own, without the rows before it. */
  ghost predicate Matches(e: AxiosError, b: Branch)
  {
    match b
    case NoResponse => e.response.None?
    case GatewayFailure =>
      e.response.Some? && (e.response.value.status == 502 || e.response.value.body.NotAnObject?)
    case WpeRejection =>
      e.response.Some? && e.response.value.status == 401
      && exists i: nat :: OccursAt(e.requestPath, WpeMarker, i)
    case ExpiredToken => HasFirstMessage(e) && FirstMessage(e).code == "952"
    case ResourceError => true
  }

  /** Row `b` is the first whose condition holds. */
  ghost predicate Selected(e: AxiosError, b: Branch)
  {
    Matches(e, b) && forall c: Branch :: c.Rank() < b.Rank() ==> !Matches(e, c)
  }

  /** What each row rejects with. */
  function RowResult(e: AxiosError, b: Branch): Rejection
    requires b == ExpiredToken || b == ResourceError ==> HasFirstMessage(e)
  {
    match b
    case NoResponse => Transport(e)
    case GatewayFailure => Api(UnavailableError)
    case WpeRejection => Api(WpeRejectedError)
    case ExpiredToken => Api(FirstMessage(e).(expired := Some(true)))
    case ResourceError => Api(FirstMessage(e))
  }

  /**
   * Every failure selects exactly one row, and the normaliser rejects with
   * that row's result.
   */
  lemma {:induction false} FirstMatchWins(e: AxiosError)
    requires FirstMessageDefined(e)
    ensures exists b :: Selected(e, b)
    ensures forall b1, b2 :: Selected(e, b1) && Selected(e, b2) ==> b1 == b2
    ensures forall b :: Selected(e, b) ==>
              (b == ExpiredToken || b == ResourceError ==> HasFirstMessage(e))
              && HandleResponseError(e) == RowResult(e, b)
  {
    var b :=
      if e.response.None? then NoResponse
      else if IsGatewayFailure(e.response.value) then GatewayFailure
      else if IsWpeRejection(e, e.response.value) then WpeRejection
      else if FirstMessage(e).code == ExpiredTokenCode then ExpiredToken
      else ResourceError;
    forall c: Branch | c.Rank() < b.Rank() ensures !Matches(e, c) {
    }
    assert Selected(e, b);
    forall b' | Selected(e, b') ensures b' == b {
    }
  }

  /** Branch 1: with no response, the original error is the rejection, identical. */
  lemma NoResponsePassesThrough(e: AxiosError)
    requires FirstMessageDefined(e)
    ensures e.response.None? <==> HandleResponseError(e) == Transport(e)
  {
  }

  /**
   * Branch 2 takes precedence: a 502 or a non-object body yields the
   * unavailable error whatever the path and the messages say.
   */
  lemma GatewayFailureOverridesAll(e: AxiosError, resp: HttpResponse)
    requires e.response == Some(resp)
    requires resp.status == 502 || resp.body.NotAnObject?
    ensures Selected(e, GatewayFailure)
    ensures HandleResponseError(e) == Api(UnavailableError)
  {
  }

  /**
   * Branch 3 is selected exactly when the status is 401, the request path
   * contains the marker, and the body is an object.
   */
  lemma WpeSelectedExactly(e: AxiosError)
    requires FirstMessageDefined(e)
    ensures Selected(e, WpeRejection) <==>
              && e.response.Some?
              && e.response.value.status == 401
              && e.response.value.body.Obj?
              && Includes(e.requestPath, WpeMarker)
    ensures Selected(e, WpeRejection) ==> HandleResponseError(e) == Api(WpeRejectedError)
  {
    if e.response.Some? && e.response.value.status == 401 && e.response.value.body.Obj?
       && Includes(e.requestPath, WpeMarker)
    {
      forall c: Branch | c.Rank() < WpeRejection.Rank() ensures !Matches(e, c) {
      }
      assert Selected(e, WpeRejection);
    }
    if Selected(e, WpeRejection) {
      assert !Matches(e, GatewayFailure);
    }
  }

  /**
   * The WPE error comes out only from branch 3, or when the server's own
   * first message is that very record.
   */
  lemma WpeErrorOnlyFromBranchOrServer(e: AxiosError)
    requires FirstMessageDefined(e)
    requires HandleResponseError(e) == Api(WpeRejectedError)
    ensures Selected(e, WpeRejection) || (HasFirstMessage(e) && FirstMessage(e) == WpeRejectedError)
  {
  }

  /** A 401 whose path lacks the marker falls through to the message-based branches. */
  lemma UnauthorizedWithoutMarkerFallsThrough(e: AxiosError)
    requires HasFirstMessage(e)
    requires e.response.value.status == 401
    requires !Includes(e.requestPath, WpeMarker)
    ensures HandleResponseError(e) == Api(
              if FirstMessage(e).code == "952" then MarkExpired(FirstMessage(e)) else FirstMessage(e))
  {
  }

  /**
   * Branches 4 and 5: past branches 2 and 3, a first message with code 952
   * comes back with `expired: true` and nothing else changed; any other
   * first message comes back exactly as the server sent it.
   */
  lemma FirstMessageBranches(e: AxiosError)
    requires HasFirstMessage(e)
    requires !IsGatewayFailure(e.response.value) && !IsWpeRejection(e, e.response.value)
    ensures HandleResponseError(e).Api?
    ensures FirstMessage(e).code == "952" ==>
              var m := HandleResponseError(e).error;
              m.code == FirstMessage(e).code && m.message == FirstMessage(e).message && m.expired == Some(true)
    ensures FirstMessage(e).code != "952" ==> HandleResponseError(e).error == FirstMessage(e)
  {
  }

  /** The guard's examples: an ftp url is refused, an https url loses its `params.request`. */
  lemma GuardScenarios()
    ensures InterceptRequest(Config("ftp://x", None, None, map[])) == Err(SchemeRequiredError)
    ensures InterceptRequest(Config("https://fms", Some(map["request" := JNum(10), "limit" := JNum(5)]), None, map[]))
            == Ok(Config("https://fms", Some(map["limit" := JNum(5)]), None, map[]))
  {
    var m := map["request" := JNum(10), "limit" := JNum(5)];
    assert m - {RequestKey} == map["limit" := JNum(5)];
    HttpPrefixAccepted(Config("https://fms", Some(m), None, map[]), "s://fms");
  }

  /**
   * The normaliser's examples: a gateway page, a WPE path (which wins over an
   * expired token in the body) and an expired token.
   */
  lemma NormaliserScenarios()
    ensures HandleResponseError(AxiosError("", "", "/", Some(HttpResponse(502, NotAnObject))))
            == Api(UnavailableError)
    ensures HandleResponseError(AxiosError("", "", "/fmi?" + WpeMarker, Some(HttpResponse(401, Obj([ErrorMessage("952", "Invalid token", None)])))))
            == Api(WpeRejectedError)
    ensures HandleResponseError(AxiosError("", "", "/", Some(HttpResponse(401, Obj([ErrorMessage("952", "Invalid token", None)])))))
            == Api(ErrorMessage("952", "Invalid token", Some(true)))
  {
    var wpe := "/fmi?" + WpeMarker;
    assert wpe[5..5 + |WpeMarker|] == WpeMarker;
    assert OccursAt(wpe, WpeMarker, 5);
  }

  /** Success responses are returned unchanged. */
  lemma SuccessUnchanged(resp: HttpResponse)
    ensures HandleResponse(Fulfilled(resp)) == Ok(resp)
  {
  }
}
