/** The running server: the tables and the session live in one store whose
    handlers change them in place. Each handler is proved to do exactly
    what the corresponding controller function says, so everything proved
    about those functions holds of the store. */
module Server {
  import opened Js
  import opened ApiResponse
  import opened Models
  import opened Routing
  import opened App
  import opened ErrorHandler
  import AuthGate
  import BlogController
  import CommentController
  import AuthController
  import AccessControl

  class Store {
    var users: map<int, User>
    var blogs: map<int, Blog>
    var comments: map<int, Comment>
    var session: Session
    var nextUserId: int
    var nextBlogId: int
    var nextCommentId: int

    /** The store and the session as one value. */
    function State(): (w: World)
      reads this
      ensures w.blogs == blogs && w.comments == comments && w.users == users && w.session == session
    {
      World(users, blogs, comments, session, nextUserId, nextBlogId, nextCommentId)
    }

    /** A fresh database with no rows and nobody signed in. */
    constructor()
      ensures State() == Empty && Valid(State())
    {
      users, blogs, comments := map[], map[], map[];
      session := Anonymous;
      nextUserId, nextBlogId, nextCommentId := 1, 1, 1;
    }

    /** `createBlog`: validate, then `Blog.create`. */
    method CreateBlog(title: Option<string>, content: Option<string>, now: int) returns (r: Envelope)
      requires session.user_id.Some?
      modifies this
      ensures Step(r, State()) == BlogController.CreateBlog(old(State()), title, content, now)
    {
      if !Filled(title) || !Filled(content) {
        r := Fail(400, "title and content are required", Some(VALIDATION_ERROR));
        return;
      }
      var blog := Blog(nextBlogId, title.value, content.value, session.user_id.value, now);
      blogs := blogs[blog.id := blog];
      nextBlogId := nextBlogId + 1;
      r := Succeed(Field("blog", BlogJs(blog)), Some(200));
    }

    /** `updateBlog`: `Blog.update` scoped by id and owner; no row updated is 404. */
    method UpdateBlog(id: PathParam, title: Option<string>, content: Option<string>) returns (r: Envelope)
      requires session.user_id.Some?
      modifies this
      ensures Step(r, State()) == BlogController.UpdateBlog(old(State()), id, title, content)
    {
      if !(id.Key? && id.n in blogs && session.user_id == Some(blogs[id.n].user_id))
         || (title.None? && content.None?) {
        r := Fail(404, "Blog not found or not owned", Some(NOT_FOUND));
        return;
      }
      blogs := blogs[id.n := BlogController.Revise(blogs[id.n], title, content)];
      r := Succeed(Field("updated", Bool(true)), None);
    }

    /** `deleteBlog`: `Blog.destroy` scoped by id and owner; no row matched is 404. */
    method DeleteBlog(id: PathParam) returns (r: Envelope)
      requires session.user_id.Some?
      modifies this
      ensures Step(r, State()) == BlogController.DeleteBlog(old(State()), id)
    {
      if !(id.Key? && id.n in blogs && session.user_id == Some(blogs[id.n].user_id)) {
        r := Fail(404, "Blog not found or not owned", Some(NOT_FOUND));
        return;
      }
      blogs := blogs - {id.n};
      r := Succeed(Field("deleted", Bool(true)), None);
    }

    /** `createComment`: two validations, then `Comment.create`. */
    method CreateComment(comment: Option<string>, blogId: CommentController.BlogIdInput, now: int)
      returns (r: Envelope)
      requires session.user_id.Some?
      modifies this
      ensures Step(r, State()) == CommentController.CreateComment(old(State()), comment, blogId, now)
    {
      if !Filled(comment) || !CommentController.IdGiven(blogId) {
        r := Fail(400, "comment and blog_id are required", Some(VALIDATION_ERROR));
        return;
      }
      if blogId.NotInteger? {
        r := Fail(400, "blog_id must be an integer", Some(VALIDATION_ERROR));
        return;
      }
      var c := Comment(nextCommentId, comment.value, blogId.n, session.user_id.value, now);
      comments := comments[c.id := c];
      nextCommentId := nextCommentId + 1;
      r := Succeed(Field("comment", CommentJs(c)), Some(200));
    }

    /** `deleteComment`: `findByPk`, the ownership check, then `destroy`. */
    method DeleteComment(id: PathParam) returns (r: Envelope)
      modifies this
      ensures Step(r, State()) == CommentController.DeleteComment(old(State()), id)
    {
      var found := Lookup(comments, id);
      if found.None? {
        r := Fail(404, "Comment not found", Some(NOT_FOUND));
        return;
      }
      if Some(found.value.user_id) != session.user_id {
        r := Fail(403, "Not authorized to delete this comment", Some(FORBIDDEN));
        return;
      }
      comments := comments - {id.n};
      r := Succeed(Field("deleted", Bool(true)), Some(200));
    }

    /** `signup`: `User.create`, then the session is set to the new user. */
    method Signup(name: string, username: string, password: string, rejection: ServerError)
      returns (r: Envelope)
      modifies this
      ensures Step(r, State()) == AuthController.Signup(old(State()), name, username, password, rejection)
    {
      if AuthController.UsernameTaken(users, username) {
        r := HandleError(rejection);
        return;
      }
      var u := User(nextUserId, name, username, password);
      users := users[u.id := u];
      nextUserId := nextUserId + 1;
      session := Session(Some(u.id), true);
      AuthController.StripPasswordOfUser(u);
      r := Succeed(Field("user", AuthController.StripPassword(UserJs(u))), Some(200));
    }

    /** `login`: `User.findOne` by username, the password check, then the
        session is set to that user. */
    method Login(username: string, password: string, checkPassword: (User, string) -> bool)
      returns (r: Envelope)
      requires UniqueUsernames(users)
      modifies this
      ensures Step(r, State()) == AuthController.Login(old(State()), username, password, checkPassword)
    {
      var found := AuthController.FindByUsername(users, username);
      if found.None? || !checkPassword(found.value, password) {
        r := Fail(400, AuthController.BAD_CREDENTIALS, Some(INVALID_CREDENTIALS));
        return;
      }
      var u := found.value;
      session := Session(Some(u.id), true);
      AuthController.StripPasswordOfUser(u);
      r := Succeed(Field("user", AuthController.StripPassword(UserJs(u))), Some(200));
    }

    /** `logout`: refuses a session that is not signed in, else destroys it. */
    method Logout() returns (r: Envelope)
      modifies this
      ensures Step(r, State()) == AuthController.Logout(old(State()))
    {
      if !session.logged_in {
        r := Fail(401, "Not logged in", Some(UNAUTHORIZED));
        return;
      }
      session := Anonymous;
      r := Succeed(Field("logged_out", Bool(true)), Some(200));
    }

    /** One request: find the route, run its gates, then its handler. The
        store ends exactly as `Dispatch` says, keeps its invariant, and is
        left as it was whenever the reply is a failure. */
    method Serve(req: Request, env: Env) returns (r: Envelope)
      requires Valid(State())
      modifies this
      ensures Step(r, State()) == Dispatch(old(State()), req, env)
      ensures Valid(State())
      ensures r.Failure? ==> State() == old(State())
    {
      var w := State();
      AccessControl.DispatchKeepsWorld(w, req, env);
      var found := FindRoute(Router(req.mount), req.verb, req.path);
      if found.None? {
        r := NotFound();
        return;
      }
      var route := found.value;
      var gate := RunGates(route.gates, w, req.path);
      if gate.Halt? {
        r := gate.reply;
        return;
      }
      TablesGuardWrites(req.mount, route);
      var id := ParamOf(req.path);
      var body := req.body;
      match route.handler
      case GetFeed => r := BlogController.GetFeed(w);
      case GetDetail => r := BlogController.GetDetail(w, id);
      case CreateBlog => r := CreateBlog(body.title, body.content, env.now);
      case UpdateBlog => r := UpdateBlog(id, body.title, body.content);
      case DeleteBlog => r := DeleteBlog(id);
      case CreateComment => r := CreateComment(body.comment, body.blog_id, env.now);
      case DeleteComment => r := DeleteComment(id);
      case Signup => r := Signup(body.name, body.username, body.password, env.rejection);
      case Login => r := Login(body.username, body.password, env.checkPassword);
      case Logout => r := Logout();
      case Me => r := AuthController.Me(w);
    }
  }
}
