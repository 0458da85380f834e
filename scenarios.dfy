/** Requests in sequence: what one request leaves behind is what the next one
    sees. */
module Scenarios {
  import opened Js
  import opened ApiResponse
  import opened Models
  import opened Routing
  import opened App
  import AuthGate
  import BlogController
  import AuthController
  import AccessControl

  /** A blog that was created can be read back under the id it was given,
      with the creator as its owner, and it is in the feed. */
  lemma CreateThenRead(w: World, title: string, content: string, body: Body, next: Body, env: Env)
    requires Valid(w) && w.session.logged_in
    requires body.title == Some(title) && body.content == Some(content)
    requires title != "" && content != ""
    ensures var s := Dispatch(w, Request(Blogs, POST, Root, body), env);
      var b := Blog(w.nextBlogId, title, content, w.session.user_id.value, env.now);
      && s.reply == Success(200, Field("blog", BlogJs(b)))
      && Dispatch(s.world, Request(Blogs, GET, Param(Key(b.id)), next), env).reply
         == Success(200, Field("blog", BlogJs(b)))
      && b in BlogController.Feed(s.world.blogs)
  {
    AccessControl.SignedInCreateBlog(w, body, env);
    var s := Dispatch(w, Request(Blogs, POST, Root, body), env);
    var b := Blog(w.nextBlogId, title, content, w.session.user_id.value, env.now);
    assert s.world == w.(blogs := w.blogs[b.id := b], nextBlogId := w.nextBlogId + 1);
    AccessControl.DispatchKeepsWorld(w, Request(Blogs, POST, Root, body), env);
    AccessControl.PublicDetail(s.world, Key(b.id), next, env);
    assert b == s.world.blogs[b.id];
  }

  /** After the owner's update, reading the blog shows the new title and
      content and the same owner and timestamp. */
  lemma UpdateThenRead(w: World, n: int, title: string, content: string, body: Body, next: Body, env: Env)
    requires Valid(w) && w.session.logged_in
    requires n in w.blogs && Some(w.blogs[n].user_id) == w.session.user_id
    requires body.title == Some(title) && body.content == Some(content)
    ensures var s := Dispatch(w, Request(Blogs, PUT, Param(Key(n)), body), env);
      && s.reply == Success(200, Field("updated", Bool(true)))
      && Dispatch(s.world, Request(Blogs, GET, Param(Key(n)), next), env).reply
         == Success(200, Field("blog", BlogJs(w.blogs[n].(title := title, content := content))))
  {
    AccessControl.SignedInUpdateBlog(w, Key(n), body, env);
    var s := Dispatch(w, Request(Blogs, PUT, Param(Key(n)), body), env);
    AccessControl.DispatchKeepsWorld(w, Request(Blogs, PUT, Param(Key(n)), body), env);
    AccessControl.PublicDetail(s.world, Key(n), next, env);
    assert s.world.blogs[n] == w.blogs[n].(title := title, content := content);
  }

  /** After the owner deletes a blog, reading it is NOT_FOUND and a second
      delete is refused with the same 404. */
  lemma DeleteThenRead(w: World, n: int, body: Body, next: Body, env: Env)
    requires Valid(w) && w.session.logged_in
    requires n in w.blogs && Some(w.blogs[n].user_id) == w.session.user_id
    ensures var s := Dispatch(w, Request(Blogs, DELETE, Param(Key(n)), body), env);
      && s.reply == Success(200, Field("deleted", Bool(true)))
      && Dispatch(s.world, Request(Blogs, GET, Param(Key(n)), next), env).reply
         == Failure(404, "Blog not found", NOT_FOUND)
      && Dispatch(s.world, Request(Blogs, DELETE, Param(Key(n)), next), env)
         == Step(Failure(404, "Blog not found or not owned", NOT_FOUND), s.world)
  {
    AccessControl.SignedInDeleteBlog(w, Key(n), body, env);
    var s := Dispatch(w, Request(Blogs, DELETE, Param(Key(n)), body), env);
    AccessControl.DispatchKeepsWorld(w, Request(Blogs, DELETE, Param(Key(n)), body), env);
    AccessControl.PublicDetail(s.world, Key(n), next, env);
    AccessControl.MissingBlogWrite(s.world, DELETE, Key(n), next, env);
  }

  /** A successful signup signs the new user in: `me` answers with the same
      user that signup returned. */
  lemma SignupThenMe(w: World, body: Body, next: Body, env: Env)
    requires Valid(w)
    requires !AuthController.UsernameTaken(w.users, body.username)
    ensures var s := Dispatch(w, Request(Users, POST, Root, body), env);
      && s.reply.Success?
      && Dispatch(s.world, Request(Users, GET, Param(Word("me")), next), env).reply == s.reply
  {
    AccessControl.OpenAccountRoutes(w, body, env);
    var s := Dispatch(w, Request(Users, POST, Root, body), env);
    AccessControl.DispatchKeepsWorld(w, Request(Users, POST, Root, body), env);
    AccessControl.SignedInMe(s.world, next, env);
  }

  /** After a successful login, `me` answers with the user login returned. */
  lemma LoginThenMe(w: World, body: Body, next: Body, env: Env)
    requires Valid(w)
    ensures var s := Dispatch(w, Request(Users, POST, Param(Word("login")), body), env);
      s.reply.Success? ==>
        Dispatch(s.world, Request(Users, GET, Param(Word("me")), next), env).reply == s.reply
  {
    AccessControl.OpenAccountRoutes(w, body, env);
    var s := Dispatch(w, Request(Users, POST, Param(Word("login")), body), env);
    if s.reply.Success? {
      var k :| k in w.users && w.users[k].username == body.username
        && s.reply == Success(200, Field("user", PublicUserJs(w.users[k])))
        && s.world == w.(session := Session(Some(w.users[k].id), true));
      assert w.users[k].id == k;
      assert Valid(s.world);
      AccessControl.SignedInMe(s.world, next, env);
    }
  }

  /** A signed-in logout succeeds and leaves the store as it was with an
      anonymous session. */
  lemma LogoutStep(w: World, body: Body, env: Env)
    requires Valid(w) && w.session.logged_in
    ensures Dispatch(w, Request(Users, POST, Param(Word("logout")), body), env)
         == Step(Success(200, Field("logged_out", Bool(true))), w.(session := Anonymous))
  {
    AccessControl.UserRouteOf(POST, Param(Word("logout")));
    assert RunGates([], w, Param(Word("logout"))) == AuthGate.Next;
  }

  /** Logging out ends the session: `me` and every blog write (create,
      update, delete) are refused with 401 afterwards, and a second logout
      says the user is not logged in. */
  lemma LogoutThenRefused(w: World, n: int, body: Body, next: Body, env: Env)
    requires Valid(w) && w.session.logged_in
    ensures var s := Dispatch(w, Request(Users, POST, Param(Word("logout")), body), env);
      && s.reply == Success(200, Field("logged_out", Bool(true)))
      && s.world == w.(session := Anonymous)
      && Dispatch(s.world, Request(Users, GET, Param(Word("me")), next), env).reply
         == Failure(401, "Unauthorized", UNAUTHORIZED)
      && Dispatch(s.world, Request(Blogs, POST, Root, next), env).reply
         == Failure(401, "Unauthorized", UNAUTHORIZED)
      && Dispatch(s.world, Request(Blogs, PUT, Param(Key(n)), next), env).reply
         == Failure(401, "Unauthorized", UNAUTHORIZED)
      && Dispatch(s.world, Request(Blogs, DELETE, Param(Key(n)), next), env).reply
         == Failure(401, "Unauthorized", UNAUTHORIZED)
      && Dispatch(s.world, Request(Users, POST, Param(Word("logout")), next), env).reply
         == Failure(401, "Not logged in", UNAUTHORIZED)
  {
    LogoutStep(w, body, env);
    var after := w.(session := Anonymous);
    assert Valid(after) && !after.session.logged_in;
    AccessControl.SignedOutAccount(after, next, env);
    AccessControl.SignedOutBlogWrite(after, POST, Root, next, env);
    AccessControl.SignedOutBlogWrite(after, PUT, Param(Key(n)), next, env);
    AccessControl.SignedOutBlogWrite(after, DELETE, Param(Key(n)), next, env);
  }
}
