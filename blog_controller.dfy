/** The blog handlers: two read-only queries over the blog table and three
    writes, each scoped to the signed-in user. */
module BlogController {
  import opened Js
  import opened ApiResponse
  import opened Models

  // ---------------------------------------------------------------------------
  // Feed order: newest `createdAt` first; rows created at the same instant are
  // listed by descending id.

  predicate Precedes(blogs: map<int, Blog>, k: int, j: int)
    requires k in blogs && j in blogs
  {
    blogs[k].createdAt > blogs[j].createdAt
    || (blogs[k].createdAt == blogs[j].createdAt && k >= j)
  }

  predicate IsNewest(blogs: map<int, Blog>, k: int) {
    k in blogs && forall j :: j in blogs ==> Precedes(blogs, k, j)
  }

  lemma HasKey(blogs: map<int, Blog>)
    requires |blogs| > 0
    ensures exists k :: k in blogs
  {
    if forall k :: k !in blogs {
      assert false;
    }
  }

  /** A non-empty table has a row that is listed first. */
  lemma {:induction false} NewestExists(blogs: map<int, Blog>)
    requires |blogs| > 0
    ensures exists k :: IsNewest(blogs, k)
    decreases |blogs|
  {
    HasKey(blogs);
    var x :| x in blogs;
    var rest := blogs - {x};
    assert rest.Keys == blogs.Keys - {x};
    if |rest| == 0 {
      forall j | j in blogs ensures Precedes(blogs, x, j) {
        assert j !in rest;
      }
      assert IsNewest(blogs, x);
    } else {
      NewestExists(rest);
      var y :| IsNewest(rest, y);
      if Precedes(blogs, x, y) {
        forall j | j in blogs ensures Precedes(blogs, x, j) {
          if j != x { assert j in rest && Precedes(rest, y, j); }
        }
        assert IsNewest(blogs, x);
      } else {
        forall j | j in blogs ensures Precedes(blogs, y, j) {
          if j != x { assert j in rest && Precedes(rest, y, j); }
        }
        assert IsNewest(blogs, y);
      }
    }
  }

  /** The primary keys in the order of `Blog.findAll({ order: [['createdAt',
      'DESC']] })`: every row exactly once, each listed before the rows it
      precedes. */
  function FeedKeys(blogs: map<int, Blog>): (r: seq<int>)
    ensures |r| == |blogs|
    ensures forall k :: k in r <==> k in blogs
    ensures forall i, j :: 0 <= i < j < |r| ==> r[i] != r[j] && Precedes(blogs, r[i], r[j])
    decreases |blogs|
  {
    if |blogs| == 0 then []
    else
      NewestExists(blogs);
      var k :| IsNewest(blogs, k);
      var rest := blogs - {k};
      assert rest.Keys == blogs.Keys - {k};
      var tail := FeedKeys(rest);
      NewestFirst(blogs, k, tail);
      [k] + tail
  }

  /** Putting the newest row in front of the ordered rest orders the whole table. */
  lemma NewestFirst(blogs: map<int, Blog>, k: int, tail: seq<int>)
    requires IsNewest(blogs, k)
    requires forall x :: x in tail <==> x in blogs - {k}
    requires forall i, j :: 0 <= i < j < |tail| ==> tail[i] != tail[j] && Precedes(blogs - {k}, tail[i], tail[j])
    ensures forall x :: x in [k] + tail <==> x in blogs
    ensures forall i, j :: 0 <= i < j < |[k] + tail| ==>
      ([k] + tail)[i] != ([k] + tail)[j] && Precedes(blogs, ([k] + tail)[i], ([k] + tail)[j])
  {
    var r := [k] + tail;
    forall i, j | 0 <= i < j < |r|
      ensures r[i] != r[j] && r[i] in blogs && r[j] in blogs && Precedes(blogs, r[i], r[j])
    {
      assert r[j] == tail[j - 1] && r[j] in blogs - {k};
      if i > 0 {
        assert r[i] == tail[i - 1];
        assert Precedes(blogs - {k}, tail[i - 1], tail[j - 1]);
      }
    }
  }

  /** The rows of the feed: all of them, newest first. */
  function Feed(blogs: map<int, Blog>): (r: seq<Blog>)
    ensures |r| == |blogs|
    ensures forall k :: k in blogs ==> blogs[k] in r
    ensures forall i :: 0 <= i < |r| ==> r[i] in blogs.Values
    ensures forall i, j :: 0 <= i < j < |r| ==> r[i].createdAt >= r[j].createdAt
  {
    var ks := FeedKeys(blogs);
    var r := seq(|ks|, i requires 0 <= i < |ks| => blogs[ks[i]]);
    forall k | k in blogs ensures blogs[k] in r {
      var i :| 0 <= i < |ks| && ks[i] == k;
      assert r[i] == blogs[k];
    }
    forall i | 0 <= i < |r| ensures r[i] in blogs.Values {
      assert ks[i] in blogs;
    }
    forall i, j | 0 <= i < j < |r| ensures r[i].createdAt >= r[j].createdAt {
      assert Precedes(blogs, ks[i], ks[j]);
    }
    r
  }

  function BlogsJs(bs: seq<Blog>): Value {
    Arr(seq(|bs|, i requires 0 <= i < |bs| => BlogJs(bs[i])))
  }

  // ---------------------------------------------------------------------------
  // Handlers

  /** `getFeed`: never fails. */
  function GetFeed(w: World): (r: Envelope)
    ensures r.Success? && r.status == 200
    ensures Get(r.data, "blogs") == BlogsJs(Feed(w.blogs))
  {
    Succeed(Field("blogs", BlogsJs(Feed(w.blogs))), None)
  }

  /** `getDetail`: the row under that id, or 404. */
  function GetDetail(w: World, id: PathParam): (r: Envelope)
    ensures r.Success? <==> id.Key? && id.n in w.blogs
    ensures r.Success? ==> r.status == 200 && Get(r.data, "blog") == BlogJs(w.blogs[id.n])
    ensures r.Failure? ==> r == Failure(404, "Blog not found", NOT_FOUND)
  {
    match Lookup(w.blogs, id)
    case None => Fail(404, "Blog not found", Some(NOT_FOUND))
    case Some(blog) => Succeed(Field("blog", BlogJs(blog)), None)
  }

  /** `createBlog`, reached only behind `withAuth`. */
  function CreateBlog(w: World, title: Option<string>, content: Option<string>, now: int): (s: Step)
    requires w.session.user_id.Some?
    ensures s.reply.Success? <==> Filled(title) && Filled(content)
    ensures s.reply.Failure? ==>
      s == Step(Failure(400, "title and content are required", VALIDATION_ERROR), w)
    ensures s.reply.Success? ==>
      var b := Blog(w.nextBlogId, title.value, content.value, w.session.user_id.value, now);
      && s.reply == Success(200, Field("blog", BlogJs(b)))
      && s.world == w.(blogs := w.blogs[b.id := b], nextBlogId := w.nextBlogId + 1)
  {
    if !Filled(title) || !Filled(content) then
      Step(Fail(400, "title and content are required", Some(VALIDATION_ERROR)), w)
    else
      var blog := Blog(w.nextBlogId, title.value, content.value, w.session.user_id.value, now);
      Step(Succeed(Field("blog", BlogJs(blog)), Some(200)),
           w.(blogs := w.blogs[blog.id := blog], nextBlogId := w.nextBlogId + 1))
  }

  /** The `where: { id, user_id: req.session.user_id }` filter of update and destroy. */
  predicate OwnedBySession(w: World, id: PathParam) {
    id.Key? && id.n in w.blogs && w.session.user_id == Some(w.blogs[id.n].user_id)
  }

  /** `Blog.update({ title, content })`: a field left undefined keeps its column. */
  function Revise(b: Blog, title: Option<string>, content: Option<string>): Blog {
    b.(title := if title.Some? then title.value else b.title,
       content := if content.Some? then content.value else b.content)
  }

  /** `updateBlog`: rewrites title and content of the one row with that id
      owned by the session user; an absent row and another user's row both
      give the same 404. `Blog.update` drops the fields the body leaves out,
      and with neither given it runs no query and reports no row, so that is
      the same 404 too. */
  function UpdateBlog(w: World, id: PathParam, title: Option<string>, content: Option<string>): (s: Step)
    requires w.session.user_id.Some?
    ensures s.reply.Success? <==> OwnedBySession(w, id) && (title.Some? || content.Some?)
    ensures s.reply.Failure? ==>
      s == Step(Failure(404, "Blog not found or not owned", NOT_FOUND), w)
    ensures s.reply.Success? ==> s.reply == Success(200, Field("updated", Bool(true)))
    ensures s.world.(blogs := w.blogs) == w
    ensures s.world.blogs.Keys == w.blogs.Keys
    ensures forall k :: k in w.blogs && id != Key(k) ==> s.world.blogs[k] == w.blogs[k]
    ensures s.reply.Success? ==>
      var before, after := w.blogs[id.n], s.world.blogs[id.n];
      && after.(title := before.title, content := before.content) == before
      && after.title == (if title.Some? then title.value else before.title)
      && after.content == (if content.Some? then content.value else before.content)
  {
    if !OwnedBySession(w, id) || (title.None? && content.None?) then
      Step(Fail(404, "Blog not found or not owned", Some(NOT_FOUND)), w)
    else
      Step(Succeed(Field("updated", Bool(true)), None),
           w.(blogs := w.blogs[id.n := Revise(w.blogs[id.n], title, content)]))
  }

  /** `deleteBlog`: removes the one row with that id owned by the session
      user. The comment table is not touched by the handler. */
  function DeleteBlog(w: World, id: PathParam): (s: Step)
    requires w.session.user_id.Some?
    ensures s.reply.Success? <==> OwnedBySession(w, id)
    ensures s.reply.Failure? ==>
      s == Step(Failure(404, "Blog not found or not owned", NOT_FOUND), w)
    ensures s.reply.Success? ==>
      && s.reply == Success(200, Field("deleted", Bool(true)))
      && s.world.blogs.Keys == w.blogs.Keys - {id.n}
    ensures s.world.(blogs := w.blogs) == w
    ensures forall k :: k in s.world.blogs ==> k in w.blogs && s.world.blogs[k] == w.blogs[k]
  {
    if !OwnedBySession(w, id) then
      Step(Fail(404, "Blog not found or not owned", Some(NOT_FOUND)), w)
    else
      Step(Succeed(Field("deleted", Bool(true)), None), w.(blogs := w.blogs - {id.n}))
  }
}
