/** The response envelope every handler ends in: `{ok:true, data, error:null}`
    on success and `{ok:false, data:null, error:{message, code}}` on failure,
    sent with an HTTP status. */
module ApiResponse {
  import opened Js

  const BAD_REQUEST := "BAD_REQUEST"
  const UNAUTHORIZED := "UNAUTHORIZED"
  const FORBIDDEN := "FORBIDDEN"
  const NOT_FOUND := "NOT_FOUND"
  const VALIDATION_ERROR := "VALIDATION_ERROR"
  const INVALID_CREDENTIALS := "INVALID_CREDENTIALS"
  const SERVER_ERROR := "SERVER_ERROR"

  /** What a handler hands to `res.status(status).json(...)`. */
  datatype Envelope =
    | Success(status: int, data: Value)
    | Failure(status: int, message: string, code: string)

  /** `success(res, data, status = 200)` */
  function Succeed(data: Value, status: Option<int>): (r: Envelope)
    ensures r.Success? && r.data == data
    ensures status.None? ==> r.status == 200
    ensures status.Some? ==> r.status == status.value
  {
    Success(if status.Some? then status.value else 200, data)
  }

  /** `fail(res, status, message, code = "BAD_REQUEST")` */
  function Fail(status: int, message: string, code: Option<string>): (r: Envelope)
    ensures r.Failure? && r.status == status && r.message == message
    ensures code.None? ==> r.code == BAD_REQUEST
    ensures code.Some? ==> r.code == code.value
  {
    Failure(status, message, if code.Some? then code.value else BAD_REQUEST)
  }

  /** The JSON body of an envelope. */
  function Wire(e: Envelope): (v: Value)
    ensures IsObjectType(v) && Truthy(v) && Has(v, "ok")
    ensures Get(v, "ok") == Bool(e.Success?)
    ensures e.Success? ==> Get(v, "data") == e.data && Get(v, "error") == Null
    ensures e.Failure? ==> Get(v, "data") == Null
    ensures e.Failure? ==> Get(Get(v, "error"), "message") == Str(e.message)
    ensures e.Failure? ==> Get(Get(v, "error"), "code") == Str(e.code)
  {
    match e
    case Success(_, data) =>
      Obj(map["ok" := Bool(true), "data" := data, "error" := Null])
    case Failure(_, message, code) =>
      Obj(map["ok" := Bool(false), "data" := Null,
              "error" := Obj(map["message" := Str(message), "code" := Str(code)])])
  }

  /** The two shapes are disjoint and the body together with the status
      determines the envelope: nothing is lost on the wire. */
  lemma WireInjective(e1: Envelope, e2: Envelope)
    requires e1.status == e2.status && Wire(e1) == Wire(e2)
    ensures e1 == e2
  {
    assert Get(Wire(e1), "ok") == Get(Wire(e2), "ok");
    if e1.Success? {
      assert Get(Wire(e1), "data") == Get(Wire(e2), "data");
    } else {
      assert Get(Get(Wire(e1), "error"), "message") == Get(Get(Wire(e2), "error"), "message");
      assert Get(Get(Wire(e1), "error"), "code") == Get(Get(Wire(e2), "error"), "code");
    }
  }
}
