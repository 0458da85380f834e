/** The browser side of the contract: the one place the client talks HTTP.
    It turns a reply envelope into the data it carries or into an `ApiError`,
    and it turns a transport failure into an `ApiError` too. */
module ApiClient {
  import opened Js

  // ---------------------------------------------------------------------------
  // ApiError

  /** An `ApiError`: its `name` is always "ApiError"; the other fields are
      whatever the constructor settled on. */
  datatype ApiError = ApiError(message: Value, status: Value, code: Value, details: Value)

  const ERROR_NAME := "ApiError"

  /** `new ApiError(message, opts)`: each option that is given and not
      nullish is kept; status falls back to 0, code to "UNKNOWN", details to
      null. A missing `opts` reads as `{}`. */
  function NewApiError(message: Value, opts: Value): (e: ApiError)
    ensures e.message == message
    ensures !Nullish(e.status) && !Nullish(e.code) && !e.details.Undefined?
    ensures !Nullish(Get(opts, "status")) ==> e.status == Get(opts, "status")
    ensures Nullish(Get(opts, "status")) ==> e.status == Num(0)
    ensures !Nullish(Get(opts, "code")) ==> e.code == Get(opts, "code")
    ensures Nullish(Get(opts, "code")) ==> e.code == Str("UNKNOWN")
    ensures !Nullish(Get(opts, "details")) ==> e.details == Get(opts, "details")
    ensures Nullish(Get(opts, "details")) ==> e.details == Null
  {
    ApiError(message,
             Coalesce(Get(opts, "status"), Num(0)),
             Coalesce(Get(opts, "code"), Str("UNKNOWN")),
             Coalesce(Get(opts, "details"), Null))
  }

  function Options(status: Value, code: Value, details: Value): Value {
    Obj(map["status" := status, "code" := code, "details" := details])
  }

  /** The error object as code that catches it sees it: it has no `response`. */
  function ApiErrorJs(e: ApiError): (v: Value)
    ensures !Truthy(Get(v, "response"))
    ensures Get(v, "code") == e.code && Get(v, "message") == e.message
  {
    Obj(map["name" := Str(ERROR_NAME), "message" := e.message, "status" := e.status,
            "code" := e.code, "details" := e.details])
  }

  // ---------------------------------------------------------------------------
  // getBaseUrl

  /** `String(raw).replace(/\/+$/, "")` */
  function StripTrailingSlashes(s: string): (r: string)
    ensures |r| <= |s| && r == s[..|r|]
    ensures r == "" || r[|r| - 1] != '/'
    ensures forall i :: |r| <= i < |s| ==> s[i] == '/'
    decreases |s|
  {
    if |s| > 0 && s[|s| - 1] == '/' then StripTrailingSlashes(s[..|s| - 1]) else s
  }

  /** The three properties above pin the result down: it is the one prefix
      without a trailing slash that leaves only slashes behind. */
  lemma {:induction false} StripTrailingSlashesUnique(s: string, t: string)
    requires |t| <= |s| && t == s[..|t|]
    requires t == "" || t[|t| - 1] != '/'
    requires forall i :: |t| <= i < |s| ==> s[i] == '/'
    ensures StripTrailingSlashes(s) == t
    decreases |s|
  {
    if |s| > |t| {
      assert s[|s| - 1] == '/';
      var s' := s[..|s| - 1];
      assert t == s'[..|t|];
      forall i | |t| <= i < |s'| ensures s'[i] == '/' {
        assert s'[i] == s[i];
      }
      StripTrailingSlashesUnique(s', t);
    }
  }

  /** Stripping an already stripped URL changes nothing. */
  lemma StripTrailingSlashesIdempotent(s: string)
    ensures StripTrailingSlashes(StripTrailingSlashes(s)) == StripTrailingSlashes(s)
  {
    var r := StripTrailingSlashes(s);
    StripTrailingSlashesUnique(r, r);
  }

  datatype BaseUrl = Configured(url: string) | Unset(message: string)

  const MISSING_BASE_URL := "VITE_API_BASE_URL is not defined. Did you forget to create client/.env?"

  /** `getBaseUrl`: an unset or empty `VITE_API_BASE_URL` is an error;
      otherwise the value without its trailing slashes. */
  function GetBaseUrl(raw: Option<string>): (r: BaseUrl)
    ensures r.Unset? <==> !Filled(raw)
    ensures r.Unset? ==> r.message == MISSING_BASE_URL
    ensures r.Configured? ==> r.url == StripTrailingSlashes(raw.value)
  {
    if !Filled(raw) then Unset(MISSING_BASE_URL) else Configured(StripTrailingSlashes(raw.value))
  }

  // ---------------------------------------------------------------------------
  // unwrapResponse and toApiError

  /** How a call ended: with a value, or with an `ApiError` thrown. */
  datatype Outcome = Returned(value: Value) | Thrown(error: ApiError)

  /** `payload && typeof payload === "object" && "ok" in payload` */
  predicate FollowsContract(payload: Value) {
    Truthy(payload) && IsObjectType(payload) && Has(payload, "ok")
  }

  /** `unwrapResponse(res)`: the data of a success envelope, an `ApiError`
      for a failure envelope, and any other payload as it is. */
  function UnwrapResponse(res: Value): (r: Outcome)
    ensures !FollowsContract(Get(res, "data")) ==> r == Returned(Get(res, "data"))
    ensures FollowsContract(Get(res, "data")) && Truthy(Get(Get(res, "data"), "ok")) ==>
      r == Returned(Get(Get(res, "data"), "data"))
    ensures FollowsContract(Get(res, "data")) && !Truthy(Get(Get(res, "data"), "ok")) ==>
      var payload := Get(res, "data");
      var message := Get(Get(payload, "error"), "message");
      var code := Get(Get(payload, "error"), "code");
      && r.Thrown?
      && r.error.message == (if Truthy(message) then message else Str("Request failed"))
      && r.error.code == (if Truthy(code) then code else Str("BAD_REQUEST"))
      && r.error.status == (if Nullish(Get(res, "status")) then Num(0) else Get(res, "status"))
      && r.error.details == payload
  {
    var payload := Get(res, "data");
    if FollowsContract(payload) then
      if Truthy(Get(payload, "ok")) then Returned(Get(payload, "data"))
      else
        var message := Or(Get(Get(payload, "error"), "message"), Str("Request failed"));
        var code := Or(Get(Get(payload, "error"), "code"), Str("BAD_REQUEST"));
        Thrown(NewApiError(message, Options(Coalesce(Get(res, "status"), Num(0)), code, payload)))
    else Returned(payload)
  }

  /** `toApiError(err)`: an axios error with a response is decoded by the
      same contract, falling back to HTTP_ERROR; without a response it is a
      TIMEOUT or a NETWORK_ERROR, both with status 0. */
  function ToApiError(err: Value): (e: ApiError)
    ensures var res := Get(err, "response");
      Truthy(res) && UnwrapResponse(res).Thrown? ==> e == UnwrapResponse(res).error
    ensures var res := Get(err, "response");
      Truthy(res) && UnwrapResponse(res).Returned? ==>
        && e.code == Str("HTTP_ERROR")
        && e.message == (if Truthy(Get(res, "statusText")) then Get(res, "statusText") else Str("Request failed"))
        && e.status == (if Nullish(Get(res, "status")) then Num(0) else Get(res, "status"))
        && e.details == Coalesce(Get(res, "data"), Null)
    ensures !Truthy(Get(err, "response")) ==> e.status == Num(0)
    ensures !Truthy(Get(err, "response")) && Get(err, "code") == Str("ECONNABORTED") ==>
      e.code == Str("TIMEOUT") && e.message == Str("Request timed out")
      && e.details == Coalesce(Get(err, "message"), Null)
    ensures !Truthy(Get(err, "response")) && Get(err, "code") != Str("ECONNABORTED") ==>
      e.code == Str("NETWORK_ERROR") && e.message == Str("Network error (failed to reach server)")
      && e.details == (if Truthy(Get(err, "message")) then Get(err, "message") else Coalesce(err, Null))
  {
    var res := Get(err, "response");
    if Truthy(res) then
      match UnwrapResponse(res)
      case Thrown(e) => e
      case Returned(_) =>
        NewApiError(Or(Get(res, "statusText"), Str("Request failed")),
                    Options(Get(res, "status"), Str("HTTP_ERROR"), Get(res, "data")))
    else if Get(err, "code") == Str("ECONNABORTED") then
      NewApiError(Str("Request timed out"), Options(Num(0), Str("TIMEOUT"), Get(err, "message")))
    else
      NewApiError(Str("Network error (failed to reach server)"),
                  Options(Num(0), Str("NETWORK_ERROR"), Or(Get(err, "message"), err)))
  }

  // ---------------------------------------------------------------------------
  // request

  /** What axios hands back: a response with a 2xx status, or an error. */
  datatype Transport = Resolved(res: Value) | Rejected(err: Value)

  /** `request` as written: the `catch` also receives the `ApiError` that
      `unwrapResponse` throws, and hands it to `toApiError` as if it were a
      transport error. */
  function RequestAsWritten(t: Transport): (r: Outcome)
    ensures t.Rejected? ==> r == Thrown(ToApiError(t.err))
    ensures t.Resolved? && UnwrapResponse(t.res).Returned? ==> r == UnwrapResponse(t.res)
    ensures t.Resolved? && UnwrapResponse(t.res).Thrown? && UnwrapResponse(t.res).error.code != Str("ECONNABORTED") ==>
      r.Thrown? && r.error.code == Str("NETWORK_ERROR") && r.error.status == Num(0)
  {
    match t
    case Rejected(err) => Thrown(ToApiError(err))
    case Resolved(res) =>
      match UnwrapResponse(res)
      case Returned(v) => Returned(v)
      case Thrown(e) => Thrown(ToApiError(ApiErrorJs(e)))
  }

  /** `request` with the `ApiError` of `unwrapResponse` passed through, as
      its own doc comment promises. */
  function Request(t: Transport): (r: Outcome)
    ensures t.Rejected? ==> r == Thrown(ToApiError(t.err))
    ensures t.Resolved? ==> r == UnwrapResponse(t.res)
  {
    match t
    case Rejected(err) => Thrown(ToApiError(err))
    case Resolved(res) => UnwrapResponse(res)
  }

  /** The two agree on every transport error and on every resolved response
      that does not carry a failure envelope. */
  lemma RequestAgreesOutsideFailureEnvelopes(t: Transport)
    requires t.Rejected? || UnwrapResponse(t.res).Returned?
    ensures RequestAsWritten(t) == Request(t)
  {
  }

  /** A failure envelope sent with status 200, as `errorHandler` sends it for
      an error whose `status` is 200: as written the caller sees a network
      error with status 0; corrected it sees the envelope's message, code
      and status. */
  lemma RequestAsWrittenMislabelsFailure()
    ensures var payload := Obj(map["ok" := Bool(false), "data" := Null,
                                   "error" := Obj(map["message" := Str("Taken"), "code" := Str("CONFLICT")])]);
      var t := Resolved(Obj(map["status" := Num(200), "data" := payload]));
      && RequestAsWritten(t) == Thrown(ApiError(Str("Network error (failed to reach server)"), Num(0),
                                                Str("NETWORK_ERROR"), Str("Taken")))
      && Request(t) == Thrown(ApiError(Str("Taken"), Num(200), Str("CONFLICT"), payload))
  {
  }
}
