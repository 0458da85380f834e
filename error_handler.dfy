/** The two fallbacks at the end of the middleware chain: an unmatched route,
    and an error thrown by a handler. */
module ErrorHandler {
  import opened Js
  import opened ApiResponse

  /** The fields of a thrown error that the handler reads; `None`, 0 and the
      empty string stand for a field that is absent or falsy. */
  datatype ServerError = ServerError(status: Option<int>, message: string, code: string)

  /** `notFound`: every unmatched request gets the same 404. */
  function NotFound(): (r: Envelope)
    ensures r.Failure? && r.status == 404
    ensures r.message == "Not Found" && r.code == NOT_FOUND
  {
    Failure(404, "Not Found", NOT_FOUND)
  }

  /** `errorHandler`: the error's own status, message and code where they are
      set, and 500, "Internal Server Error" and SERVER_ERROR where they are not. */
  function HandleError(err: ServerError): (r: Envelope)
    ensures r.Failure?
    ensures err.status.Some? && err.status.value != 0 ==> r.status == err.status.value
    ensures err.status.None? || err.status.value == 0 ==> r.status == 500
    ensures err.message != "" ==> r.message == err.message
    ensures err.message == "" ==> r.message == "Internal Server Error"
    ensures err.code != "" ==> r.code == err.code
    ensures err.code == "" ==> r.code == SERVER_ERROR
  {
    var status := if err.status.Some? && err.status.value != 0 then err.status.value else 500;
    var message := if err.message != "" then err.message else "Internal Server Error";
    var code := if err.code != "" then err.code else SERVER_ERROR;
    Failure(status, message, code)
  }
}
