/** The server as a whole: the three routers, the gates they name, the
    handlers, and the `notFound` fallback for everything unmatched. */
module App {
  import opened Js
  import opened ApiResponse
  import opened Models
  import opened ErrorHandler
  import AuthGate
  import BlogOwner
  import opened Routing
  import BlogRoutes
  import CommentRoutes
  import UserRoutes
  import BlogController
  import CommentController
  import AuthController

  /** Where each router is mounted. */
  datatype Mount = Blogs | Comments | Users

  /** The request body fields any handler reads. Signup and login are taken
      to carry their three string fields. */
  datatype Body = Body(
    title: Option<string>,
    content: Option<string>,
    comment: Option<string>,
    blog_id: CommentController.BlogIdInput,
    name: string,
    username: string,
    password: string)

  datatype Request = Request(mount: Mount, verb: Verb, path: Path, body: Body)

  /** What the handlers get from outside: the clock that stamps `createdAt`,
      bcrypt's comparison, and the error the User model throws for a taken
      username. */
  datatype Env = Env(now: int, checkPassword: (User, string) -> bool, rejection: ServerError)

  function Router(m: Mount): seq<Route> {
    match m
    case Blogs => BlogRoutes.Table
    case Comments => CommentRoutes.Table
    case Users => UserRoutes.Table
  }

  /** `req.params.id`; on a route without `:id` it is undefined and names no row. */
  function ParamOf(path: Path): PathParam {
    if path.Param? then path.p else Word("")
  }

  /** The handlers that write `req.session.user_id` into a row or a filter. */
  predicate NeedsUser(h: Handler) {
    h.CreateBlog? || h.UpdateBlog? || h.DeleteBlog? || h.CreateComment?
  }

  /** Every route whose handler needs the session user is behind `withAuth`,
      and no route uses `requireBlogOwner`. */
  lemma TablesGuardWrites(m: Mount, route: Route)
    requires route in Router(m)
    ensures NeedsUser(route.handler) ==> WithAuth in route.gates
    ensures RequireBlogOwner !in route.gates
  {
  }

  /** Runs the gates in order; the first one that answers ends the request. */
  function RunGates(gates: seq<Gate>, w: World, path: Path): (r: AuthGate.GateResult)
    ensures r.Next? && WithAuth in gates ==> w.session.logged_in
    ensures !w.session.logged_in && |gates| > 0 && gates[0] == WithAuth ==>
      r == AuthGate.Halt(Failure(401, "Unauthorized", UNAUTHORIZED))
    ensures r.Halt? ==> r.reply.Failure? && r.reply.message != "" && r.reply.code != ""
  {
    if |gates| == 0 then AuthGate.Next
    else
      var first := match gates[0]
        case WithAuth => AuthGate.WithAuth(w.session)
        case RequireBlogOwner =>
          match BlogOwner.CheckBlogOwner(w.blogs, w.session, ParamOf(path))
          case Owner(_) => AuthGate.Next
          case Denied(reply) => AuthGate.Halt(reply);
      if first.Halt? then first
      else
        var rest := RunGates(gates[1..], w, path);
        assert forall g :: g in gates ==> g == gates[0] || g in gates[1..];
        rest
  }

  function RunHandler(h: Handler, w: World, req: Request, env: Env): Step
    requires Valid(w)
    requires NeedsUser(h) ==> w.session.logged_in
  {
    var id := ParamOf(req.path);
    var body := req.body;
    match h
    case GetFeed => Step(BlogController.GetFeed(w), w)
    case GetDetail => Step(BlogController.GetDetail(w, id), w)
    case CreateBlog => BlogController.CreateBlog(w, body.title, body.content, env.now)
    case UpdateBlog => BlogController.UpdateBlog(w, id, body.title, body.content)
    case DeleteBlog => BlogController.DeleteBlog(w, id)
    case CreateComment => CommentController.CreateComment(w, body.comment, body.blog_id, env.now)
    case DeleteComment => CommentController.DeleteComment(w, id)
    case Signup => AuthController.Signup(w, body.name, body.username, body.password, env.rejection)
    case Login => AuthController.Login(w, body.username, body.password, env.checkPassword)
    case Logout => AuthController.Logout(w)
    case Me => Step(AuthController.Me(w), w)
  }

  /** One request from arrival to reply. */
  function Dispatch(w: World, req: Request, env: Env): Step
    requires Valid(w)
  {
    match FindRoute(Router(req.mount), req.verb, req.path)
    case None => Step(NotFound(), w)
    case Some(route) =>
      match RunGates(route.gates, w, req.path)
      case Halt(reply) => Step(reply, w)
      case Next =>
        TablesGuardWrites(req.mount, route);
        RunHandler(route.handler, w, req, env)
  }
}
