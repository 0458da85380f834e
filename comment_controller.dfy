/** The comment handlers: validated insert, and delete with an inline
    ownership check. */
module CommentController {
  import opened Js
  import opened ApiResponse
  import opened Models

  /** The `blog_id` field of a request body, by how `!blog_id` and
      `Number.isInteger(Number(blog_id))` treat it. */
  datatype BlogIdInput =
    | Missing            // undefined, null, false or NaN
    | EmptyText          // ""
    | Number(n: int)     // a JSON integer, 0 being falsy
    | NumericText(n: int) // any other truthy value Number() turns into the integer n:
                         // "7", "0", " ", true, [], [7]
    | NotInteger         // a truthy value Number() turns into no integer: "abc", "1.5", 1.5, {}

  /** `!!blog_id` */
  predicate IdGiven(b: BlogIdInput) {
    !(b.Missing? || b.EmptyText? || b == Number(0))
  }

  /** `createComment`, reached only behind `withAuth`. The handler itself
      does not look the blog up. */
  function CreateComment(w: World, comment: Option<string>, blogId: BlogIdInput, now: int): (s: Step)
    requires w.session.user_id.Some?
    ensures !Filled(comment) || !IdGiven(blogId) ==>
      s == Step(Failure(400, "comment and blog_id are required", VALIDATION_ERROR), w)
    ensures Filled(comment) && IdGiven(blogId) && blogId.NotInteger? ==>
      s == Step(Failure(400, "blog_id must be an integer", VALIDATION_ERROR), w)
    ensures s.reply.Success? <==> Filled(comment) && IdGiven(blogId) && !blogId.NotInteger?
    ensures s.reply.Success? ==>
      var c := Comment(w.nextCommentId, comment.value, blogId.n, w.session.user_id.value, now);
      && s.reply == Success(200, Field("comment", CommentJs(c)))
      && s.world == w.(comments := w.comments[c.id := c], nextCommentId := w.nextCommentId + 1)
  {
    if !Filled(comment) || !IdGiven(blogId) then
      Step(Fail(400, "comment and blog_id are required", Some(VALIDATION_ERROR)), w)
    else if blogId.NotInteger? then
      Step(Fail(400, "blog_id must be an integer", Some(VALIDATION_ERROR)), w)
    else
      var c := Comment(w.nextCommentId, comment.value, blogId.n, w.session.user_id.value, now);
      Step(Succeed(Field("comment", CommentJs(c)), Some(200)),
           w.(comments := w.comments[c.id := c], nextCommentId := w.nextCommentId + 1))
  }

  /** `deleteComment`: 404 for an absent comment before 403 for someone
      else's; only the session user's own comment is destroyed. */
  function DeleteComment(w: World, id: PathParam): (s: Step)
    ensures Lookup(w.comments, id).None? ==>
      s == Step(Failure(404, "Comment not found", NOT_FOUND), w)
    ensures Lookup(w.comments, id).Some? && Some(w.comments[id.n].user_id) != w.session.user_id ==>
      s == Step(Failure(403, "Not authorized to delete this comment", FORBIDDEN), w)
    ensures s.reply.Success? <==>
      id.Key? && id.n in w.comments && Some(w.comments[id.n].user_id) == w.session.user_id
    ensures s.reply.Success? ==>
      && s.reply == Success(200, Field("deleted", Bool(true)))
      && s.world == w.(comments := w.comments - {id.n})
  {
    match Lookup(w.comments, id)
    case None => Step(Fail(404, "Comment not found", Some(NOT_FOUND)), w)
    case Some(c) =>
      if Some(c.user_id) != w.session.user_id then
        Step(Fail(403, "Not authorized to delete this comment", Some(FORBIDDEN)), w)
      else
        Step(Succeed(Field("deleted", Bool(true)), Some(200)), w.(comments := w.comments - {id.n}))
  }
}
