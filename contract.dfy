/** The envelope contract end to end: what the server sends for a reply, how
    axios delivers it, and what the client's `request` makes of it, both as
    written (`RequestAsWritten`) and corrected (`ApiClient.Request`). */
module WireContract {
  import opened Js
  import opened ApiResponse
  import opened Models
  import opened ErrorHandler
  import opened App
  import opened ApiClient
  import BlogController
  import CommentController
  import AuthController

  /** The axios response for a reply: its status and the JSON body. */
  function ResponseOf(e: Envelope, statusText: string): (v: Value)
    ensures Truthy(v) && Get(v, "data") == Wire(e) && Get(v, "status") == Num(e.status)
  {
    Obj(map["status" := Num(e.status), "statusText" := Str(statusText), "data" := Wire(e)])
  }

  /** axios resolves a 2xx response and rejects any other with an error that
      carries the response. */
  function Deliver(e: Envelope, statusText: string): (t: Transport)
    ensures 200 <= e.status < 300 <==> t.Resolved?
    ensures t.Resolved? ==> t.res == ResponseOf(e, statusText)
    ensures t.Rejected? ==> Get(t.err, "response") == ResponseOf(e, statusText)
  {
    var res := ResponseOf(e, statusText);
    if 200 <= e.status < 300 then Resolved(res) else Rejected(Obj(map["response" := res]))
  }

  /** The replies this server produces: successes with status 200, failures
      with a message and a code. */
  predicate WellFormed(e: Envelope) {
    (e.Success? && e.status == 200) || (e.Failure? && e.message != "" && e.code != "")
  }

  /** What a caller of `request` should see for a reply: the data of a
      success, and for a failure an `ApiError` carrying the message, the
      code, the status and the whole body. */
  function Decoded(e: Envelope): Outcome {
    match e
    case Success(_, data) => Returned(data)
    case Failure(status, message, code) =>
      Thrown(ApiError(Str(message), Num(status), Str(code), Wire(e)))
  }

  /** Nothing a well-formed reply says is lost on its way to the caller. */
  lemma DecodedInjective(e1: Envelope, e2: Envelope)
    requires WellFormed(e1) && WellFormed(e2)
    requires Decoded(e1) == Decoded(e2)
    ensures e1 == e2
  {
    if e1.Failure? {
      assert Decoded(e1).error.status == Num(e1.status);
      assert Decoded(e1).error.message == Str(e1.message);
      assert Decoded(e1).error.code == Str(e1.code);
    }
  }

  /** `unwrapResponse` inverts `success` and `fail`: through the corrected
      `request`, a well-formed reply decodes to `Decoded`, whichever way
      axios delivers it. */
  lemma ClientDecodesReply(e: Envelope, statusText: string)
    requires WellFormed(e)
    ensures ApiClient.Request(Deliver(e, statusText)) == Decoded(e)
  {
    var res := ResponseOf(e, statusText);
    assert FollowsContract(Get(res, "data"));
    if e.Failure? {
      assert Get(Get(Wire(e), "error"), "message") == Str(e.message);
      assert Get(Get(Wire(e), "error"), "code") == Str(e.code);
      if !(200 <= e.status < 300) {
        assert Get(Obj(map["response" := res]), "response") == res;
      }
    }
  }

  /** `request` as written decodes every reply correctly except a failure
      sent with a 2xx status. */
  lemma AsWrittenDecodesErrorStatuses(e: Envelope, statusText: string)
    requires WellFormed(e)
    requires e.Failure? ==> !(200 <= e.status < 300)
    ensures RequestAsWritten(Deliver(e, statusText)) == Decoded(e)
  {
    ClientDecodesReply(e, statusText);
    RequestAgreesOutsideFailureEnvelopes(Deliver(e, statusText));
  }

  /** Every reply a handler gives is well formed. */
  lemma HandlerRepliesWellFormed(h: Routing.Handler, w: World, req: Request, env: Env)
    requires Valid(w)
    requires NeedsUser(h) ==> w.session.logged_in
    ensures WellFormed(RunHandler(h, w, req, env).reply)
  {
  }

  /** Every reply the server gives is well formed. */
  lemma DispatchWellFormed(w: World, req: Request, env: Env)
    requires Valid(w)
    ensures WellFormed(Dispatch(w, req, env).reply)
  {
    match Routing.FindRoute(Router(req.mount), req.verb, req.path)
    case None =>
    case Some(route) =>
      match RunGates(route.gates, w, req.path)
      case Halt(_) =>
      case Next =>
        TablesGuardWrites(req.mount, route);
        HandlerRepliesWellFormed(route.handler, w, req, env);
  }

  /** So the corrected `request` decodes each reply of the server to exactly
      what it says. */
  lemma ServerRepliesDecode(w: World, req: Request, env: Env, statusText: string)
    requires Valid(w)
    ensures ApiClient.Request(Deliver(Dispatch(w, req, env).reply, statusText)) == Decoded(Dispatch(w, req, env).reply)
  {
    DispatchWellFormed(w, req, env);
    ClientDecodesReply(Dispatch(w, req, env).reply, statusText);
  }

  /** The case `request` as written gets wrong would arise from this server
      if the User model's error for a taken username carried status 200:
      that signup would reach the caller as a network error. */
  lemma TakenUsernameWithStatus200(w: World, name: string, username: string, password: string,
                                   message: string, code: string, statusText: string)
    requires AuthController.UsernameTaken(w.users, username)
    requires message != "" && code != "" && code != "ECONNABORTED"
    ensures var e := AuthController.Signup(w, name, username, password,
                                           ServerError(Some(200), message, code)).reply;
      && e == Failure(200, message, code)
      && RequestAsWritten(Deliver(e, statusText)).error.code == Str("NETWORK_ERROR")
      && ApiClient.Request(Deliver(e, statusText)) == Thrown(ApiError(Str(message), Num(200), Str(code), Wire(e)))
  {
    var e := Failure(200, message, code);
    ClientDecodesReply(e, statusText);
  }
}
