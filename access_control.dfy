/** What the route tables, gates and handlers guarantee together, request by
    request. */
module AccessControl {
  import opened Js
  import opened ApiResponse
  import opened Models
  import opened Routing
  import opened App
  import AuthGate
  import BlogOwner
  import BlogController
  import CommentController
  import AuthController

  lemma HandlerKeepsWorldOnFailure(h: Handler, w: World, req: Request, env: Env)
    requires Valid(w)
    requires NeedsUser(h) ==> w.session.logged_in
    ensures RunHandler(h, w, req, env).reply.Failure? ==> RunHandler(h, w, req, env).world == w
    ensures Valid(RunHandler(h, w, req, env).world)
  {
    var s := RunHandler(h, w, req, env);
    match h
    case Signup =>
      var u := User(w.nextUserId, req.body.name, req.body.username, req.body.password);
      if s.reply.Success? {
        assert s.world.users == w.users[u.id := u];
        assert forall k :: k in w.users ==> w.users[k].username != u.username;
      }
    case Login =>
      if s.reply.Success? {
        var k :| k in w.users && w.users[k].username == req.body.username
          && s.world == w.(session := Session(Some(w.users[k].id), true));
        assert w.users[k].id == k;
      }
    case UpdateBlog =>
      var id := ParamOf(req.path);
      if s.reply.Success? {
        assert forall k :: k in s.world.blogs ==> s.world.blogs[k].id == w.blogs[k].id;
      }
    case _ =>
  }

  /** Nothing a failed request does is kept: the store and the session are
      exactly as they were. And every request keeps the store invariant. */
  lemma DispatchKeepsWorld(w: World, req: Request, env: Env)
    requires Valid(w)
    ensures Dispatch(w, req, env).reply.Failure? ==> Dispatch(w, req, env).world == w
    ensures Valid(Dispatch(w, req, env).world)
  {
    match FindRoute(Router(req.mount), req.verb, req.path)
    case None =>
    case Some(route) =>
      match RunGates(route.gates, w, req.path)
      case Halt(_) =>
      case Next =>
        TablesGuardWrites(req.mount, route);
        HandlerKeepsWorldOnFailure(route.handler, w, req, env);
  }

  /** Which route of `/blogs` a request reaches. */
  lemma BlogRouteOf(verb: Verb, path: Path)
    ensures verb == GET && path == Root ==> FindRoute(BlogRoutes.Table, verb, path) == Some(BlogRoutes.Table[0])
    ensures verb == GET && path.Param? ==> FindRoute(BlogRoutes.Table, verb, path) == Some(BlogRoutes.Table[1])
    ensures verb == POST && path == Root ==> FindRoute(BlogRoutes.Table, verb, path) == Some(BlogRoutes.Table[2])
    ensures verb == PUT && path.Param? ==> FindRoute(BlogRoutes.Table, verb, path) == Some(BlogRoutes.Table[3])
    ensures verb == DELETE && path.Param? ==> FindRoute(BlogRoutes.Table, verb, path) == Some(BlogRoutes.Table[4])
  {
    var t := BlogRoutes.Table;
    assert t[1..][1..][1..][1..] == [t[4]];
  }

  /** Which route of `/comments` a request reaches. */
  lemma CommentRouteOf(verb: Verb, path: Path)
    ensures verb == POST && path == Root ==> FindRoute(CommentRoutes.Table, verb, path) == Some(CommentRoutes.Table[0])
    ensures verb == DELETE && path.Param? ==> FindRoute(CommentRoutes.Table, verb, path) == Some(CommentRoutes.Table[1])
    ensures verb == GET ==> FindRoute(CommentRoutes.Table, verb, path).None?
  {
    var t := CommentRoutes.Table;
    assert t[1..][1..] == [];
  }

  /** Which route of the user router a request reaches. */
  lemma UserRouteOf(verb: Verb, path: Path)
    ensures verb == POST && path == Root ==> FindRoute(UserRoutes.Table, verb, path) == Some(UserRoutes.Table[0])
    ensures verb == POST && path == Param(Word("login")) ==> FindRoute(UserRoutes.Table, verb, path) == Some(UserRoutes.Table[1])
    ensures verb == POST && path == Param(Word("logout")) ==> FindRoute(UserRoutes.Table, verb, path) == Some(UserRoutes.Table[2])
    ensures verb == GET && path == Param(Word("me")) ==> FindRoute(UserRoutes.Table, verb, path) == Some(UserRoutes.Table[3])
    ensures verb == GET && path != Param(Word("me")) ==> FindRoute(UserRoutes.Table, verb, path).None?
  {
    var t := UserRoutes.Table;
    assert t[1..][1..][1..][1..] == [];
  }

  /** `withAuth` lets a signed-in session through. */
  lemma SignedInPasses(w: World, path: Path)
    requires w.session.logged_in
    ensures RunGates([WithAuth], w, path) == AuthGate.Next
  {
    assert [WithAuth][1..] == [];
  }

  const Unauthorized := Failure(401, "Unauthorized", UNAUTHORIZED)

  /** POST, PUT and DELETE on `/blogs` pass `withAuth` first: a signed-out
      request gets 401 whatever its body and whether or not the blog exists,
      and nothing changes. */
  lemma SignedOutBlogWrite(w: World, verb: Verb, path: Path, body: Body, env: Env)
    requires Valid(w) && !w.session.logged_in
    requires (verb == POST && path == Root) || ((verb == PUT || verb == DELETE) && path.Param?)
    ensures Dispatch(w, Request(Blogs, verb, path, body), env) == Step(Unauthorized, w)
  {
    BlogRouteOf(verb, path);
  }

  /** Both comment routes pass `withAuth` first: a signed-out create gets 401
      even with an invalid body, a signed-out delete gets 401 rather than 404
      or 403. */
  lemma SignedOutCommentWrite(w: World, verb: Verb, path: Path, body: Body, env: Env)
    requires Valid(w) && !w.session.logged_in
    requires (verb == POST && path == Root) || (verb == DELETE && path.Param?)
    ensures Dispatch(w, Request(Comments, verb, path, body), env) == Step(Unauthorized, w)
  {
    CommentRouteOf(verb, path);
  }

  /** GET `/me` is behind `withAuth`; POST `/logout` is not, and its 401
      comes from the handler's own check, with the handler's message. */
  lemma SignedOutAccount(w: World, body: Body, env: Env)
    requires Valid(w) && !w.session.logged_in
    ensures Dispatch(w, Request(Users, GET, Param(Word("me")), body), env) == Step(Unauthorized, w)
    ensures Dispatch(w, Request(Users, POST, Param(Word("logout")), body), env)
         == Step(Failure(401, "Not logged in", UNAUTHORIZED), w)
  {
    UserRouteOf(GET, Param(Word("me")));
    UserRouteOf(POST, Param(Word("logout")));
  }

  /** The two GET routes on `/blogs` have no gate: anyone may read. */
  lemma PublicFeed(w: World, body: Body, env: Env)
    requires Valid(w)
    ensures Dispatch(w, Request(Blogs, GET, Root, body), env) == Step(BlogController.GetFeed(w), w)
  {
    BlogRouteOf(GET, Root);
    assert RunGates([], w, Root) == AuthGate.Next;
  }

  lemma PublicDetail(w: World, id: PathParam, body: Body, env: Env)
    requires Valid(w)
    ensures Dispatch(w, Request(Blogs, GET, Param(id), body), env) == Step(BlogController.GetDetail(w, id), w)
  {
    BlogRouteOf(GET, Param(id));
    assert RunGates([], w, Param(id)) == AuthGate.Next;
  }

  /** A signed-in write on `/blogs` reaches its handler. */
  lemma SignedInCreateBlog(w: World, body: Body, env: Env)
    requires Valid(w) && w.session.logged_in
    ensures Dispatch(w, Request(Blogs, POST, Root, body), env)
         == BlogController.CreateBlog(w, body.title, body.content, env.now)
  {
    BlogRouteOf(POST, Root);
    SignedInPasses(w, Root);
  }

  lemma SignedInUpdateBlog(w: World, id: PathParam, body: Body, env: Env)
    requires Valid(w) && w.session.logged_in
    ensures Dispatch(w, Request(Blogs, PUT, Param(id), body), env)
         == BlogController.UpdateBlog(w, id, body.title, body.content)
  {
    BlogRouteOf(PUT, Param(id));
    SignedInPasses(w, Param(id));
  }

  lemma SignedInDeleteBlog(w: World, id: PathParam, body: Body, env: Env)
    requires Valid(w) && w.session.logged_in
    ensures Dispatch(w, Request(Blogs, DELETE, Param(id), body), env) == BlogController.DeleteBlog(w, id)
  {
    BlogRouteOf(DELETE, Param(id));
    SignedInPasses(w, Param(id));
  }

  /** A signed-in GET `/me` reaches its handler. */
  lemma SignedInMe(w: World, body: Body, env: Env)
    requires Valid(w) && w.session.logged_in
    ensures Dispatch(w, Request(Users, GET, Param(Word("me")), body), env) == Step(AuthController.Me(w), w)
  {
    UserRouteOf(GET, Param(Word("me")));
    SignedInPasses(w, Param(Word("me")));
  }

  /** Signup and login have no gate either. */
  lemma OpenAccountRoutes(w: World, body: Body, env: Env)
    requires Valid(w)
    ensures Dispatch(w, Request(Users, POST, Root, body), env)
         == AuthController.Signup(w, body.name, body.username, body.password, env.rejection)
    ensures Dispatch(w, Request(Users, POST, Param(Word("login")), body), env)
         == AuthController.Login(w, body.username, body.password, env.checkPassword)
  {
    UserRouteOf(POST, Root);
    UserRouteOf(POST, Param(Word("login")));
    assert RunGates([], w, Root) == AuthGate.Next;
    assert RunGates([], w, Param(Word("login"))) == AuthGate.Next;
  }

  /** Because `requireBlogOwner` is on no route, a signed-in user who writes
      to someone else's existing blog is told it was not found, while the
      gate itself would have answered 403. Nothing changes either way. */
  lemma NonOwnerBlogWrite(w: World, verb: Verb, n: int, body: Body, env: Env)
    requires Valid(w) && w.session.logged_in
    requires verb == PUT || verb == DELETE
    requires n in w.blogs && Some(w.blogs[n].user_id) != w.session.user_id
    ensures Dispatch(w, Request(Blogs, verb, Param(Key(n)), body), env)
         == Step(Failure(404, "Blog not found or not owned", NOT_FOUND), w)
    ensures BlogOwner.CheckBlogOwner(w.blogs, w.session, Key(n))
         == BlogOwner.Denied(Failure(403, "Forbidden: not the blog owner", FORBIDDEN))
  {
    BlogRouteOf(verb, Param(Key(n)));
    SignedInPasses(w, Param(Key(n)));
  }

  /** A write to a blog that does not exist is NOT_FOUND, never FORBIDDEN,
      through the routes and through the gate alike. */
  lemma MissingBlogWrite(w: World, verb: Verb, id: PathParam, body: Body, env: Env)
    requires Valid(w) && w.session.logged_in
    requires verb == PUT || verb == DELETE
    requires Lookup(w.blogs, id).None?
    ensures Dispatch(w, Request(Blogs, verb, Param(id), body), env)
         == Step(Failure(404, "Blog not found or not owned", NOT_FOUND), w)
    ensures BlogOwner.CheckBlogOwner(w.blogs, w.session, id)
         == BlogOwner.Denied(Failure(404, "Blog not found", NOT_FOUND))
  {
    BlogRouteOf(verb, Param(id));
    SignedInPasses(w, Param(id));
  }

  /** The owner's own DELETE goes through, and so does a PUT that gives a
      title or a content; a PUT that gives neither updates no row and gets the
      404 of a blog that is not there. The gate would pass them all. */
  lemma OwnerBlogWrite(w: World, verb: Verb, n: int, body: Body, env: Env)
    requires Valid(w) && w.session.logged_in
    requires verb == PUT || verb == DELETE
    requires n in w.blogs && Some(w.blogs[n].user_id) == w.session.user_id
    ensures Dispatch(w, Request(Blogs, verb, Param(Key(n)), body), env).reply.Success?
        <==> verb == DELETE || body.title.Some? || body.content.Some?
    ensures BlogOwner.CheckBlogOwner(w.blogs, w.session, Key(n)).Owner?
  {
    BlogRouteOf(verb, Param(Key(n)));
    SignedInPasses(w, Param(Key(n)));
    assert w.session.user_id.value in w.users;
  }

  /** Deleting a comment checks existence before ownership. */
  lemma CommentDeleteOrder(w: World, id: PathParam, body: Body, env: Env)
    requires Valid(w) && w.session.logged_in
    ensures Lookup(w.comments, id).None? ==>
      Dispatch(w, Request(Comments, DELETE, Param(id), body), env)
        == Step(Failure(404, "Comment not found", NOT_FOUND), w)
    ensures Lookup(w.comments, id).Some? && Some(w.comments[id.n].user_id) != w.session.user_id ==>
      Dispatch(w, Request(Comments, DELETE, Param(id), body), env)
        == Step(Failure(403, "Not authorized to delete this comment", FORBIDDEN), w)
  {
    CommentRouteOf(DELETE, Param(id));
    SignedInPasses(w, Param(id));
  }

  /** A request that no route of its router matches gets the `notFound`
      fallback, and nothing changes. */
  lemma UnknownRoute(w: World, req: Request, env: Env)
    requires Valid(w) && FindRoute(Router(req.mount), req.verb, req.path).None?
    ensures Dispatch(w, req, env) == Step(Failure(404, "Not Found", NOT_FOUND), w)
  {
  }

  /** For instance a GET of `/login`, which is a POST route, and any GET
      under `/comments`. */
  lemma UnmatchedRequests(w: World, body: Body, env: Env)
    requires Valid(w)
    ensures FindRoute(Router(Users), GET, Param(Word("login"))).None?
    ensures FindRoute(Router(Comments), GET, Root).None?
    ensures Dispatch(w, Request(Users, GET, Param(Word("login")), body), env)
         == Step(Failure(404, "Not Found", NOT_FOUND), w)
  {
    UserRouteOf(GET, Param(Word("login")));
    CommentRouteOf(GET, Root);
  }
}
