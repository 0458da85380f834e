/** `withAuth`: the session guard in front of every handler that needs a
    signed-in user. */
module AuthGate {
  import opened Js
  import opened ApiResponse
  import opened Models

  /** Either `next()` runs the rest of the chain, or the gate answers itself
      and nothing after it runs. */
  datatype GateResult = Next | Halt(reply: Envelope)

  /** Passes exactly the signed-in sessions; looks at `logged_in` only, and
      answers everyone else with the same 401 that `fail` would build. */
  function WithAuth(s: Session): (r: GateResult)
    ensures r.Next? <==> s.logged_in
    ensures r.Halt? ==> r.reply == Fail(401, "Unauthorized", Some(UNAUTHORIZED))
  {
    if !s.logged_in then Halt(Failure(401, "Unauthorized", UNAUTHORIZED)) else Next
  }
}
