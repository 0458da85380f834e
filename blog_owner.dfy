/** `requireBlogOwner`: an ownership gate for `/:id` blog routes that checks,
    in this order, that someone is signed in, that the blog exists and that it
    is theirs, and hands the loaded row on to the handler. */
module BlogOwner {
  import opened Js
  import opened ApiResponse
  import opened Models

  /** The row as loaded with `attributes: ['id', 'user_id']`. */
  datatype BlogRef = BlogRef(id: int, user_id: int)

  datatype OwnerResult = Owner(blog: BlogRef) | Denied(reply: Envelope)

  /** `!sessionUserId`: no user id, or the falsy id 0. */
  predicate NoSessionUser(s: Session) {
    s.user_id.None? || s.user_id.value == 0
  }

  /** The decision of the gate. A missing blog is never reported as
      FORBIDDEN, and nobody signed out learns whether a blog exists. */
  function CheckBlogOwner(blogs: map<int, Blog>, s: Session, id: PathParam): (r: OwnerResult)
    ensures NoSessionUser(s) ==> r == Denied(Failure(401, "Unauthorized", UNAUTHORIZED))
    ensures !NoSessionUser(s) && Lookup(blogs, id).None? ==>
      r == Denied(Failure(404, "Blog not found", NOT_FOUND))
    ensures !NoSessionUser(s) && Lookup(blogs, id).Some? && Some(blogs[id.n].user_id) != s.user_id ==>
      r == Denied(Failure(403, "Forbidden: not the blog owner", FORBIDDEN))
    ensures r.Owner? <==> !NoSessionUser(s) && id.Key? && id.n in blogs && s.user_id == Some(blogs[id.n].user_id)
    ensures r.Owner? ==> r.blog == BlogRef(blogs[id.n].id, blogs[id.n].user_id)
  {
    if NoSessionUser(s) then Denied(Fail(401, "Unauthorized", Some(UNAUTHORIZED)))
    else match Lookup(blogs, id)
      case None => Denied(Fail(404, "Blog not found", Some(NOT_FOUND)))
      case Some(blog) =>
        if Some(blog.user_id) != s.user_id then
          Denied(Fail(403, "Forbidden: not the blog owner", Some(FORBIDDEN)))
        else
          Owner(BlogRef(blog.id, blog.user_id))
  }

  /** The request as the gate sees it: `req.blog`, and how often the gate
      has called `next()`. */
  class RequestContext {
    var blog: Option<BlogRef>
    var nextCalls: nat

    constructor ()
      ensures blog == None && nextCalls == 0
    {
      blog := None;
      nextCalls := 0;
    }

    /** Runs the gate: on success attaches the row and calls `next()` once;
        on failure answers with the gate's envelope and touches nothing. */
    method RequireBlogOwner(blogs: map<int, Blog>, s: Session, id: PathParam) returns (halt: Option<Envelope>)
      modifies this
      ensures halt.None? <==> CheckBlogOwner(blogs, s, id).Owner?
      ensures halt.Some? ==>
        && halt.value == CheckBlogOwner(blogs, s, id).reply
        && blog == old(blog) && nextCalls == old(nextCalls)
      ensures halt.None? ==>
        && blog == Some(CheckBlogOwner(blogs, s, id).blog)
        && nextCalls == old(nextCalls) + 1
    {
      if NoSessionUser(s) {
        return Some(Fail(401, "Unauthorized", Some(UNAUTHORIZED)));
      }
      var found := Lookup(blogs, id);
      if found.None? {
        return Some(Fail(404, "Blog not found", Some(NOT_FOUND)));
      }
      if Some(found.value.user_id) != s.user_id {
        return Some(Fail(403, "Forbidden: not the blog owner", Some(FORBIDDEN)));
      }
      blog := Some(BlogRef(found.value.id, found.value.user_id));
      nextCalls := nextCalls + 1;
      halt := None;
    }
  }
}
