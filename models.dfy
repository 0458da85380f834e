/** The records behind the controllers, with the relational store replaced by
    maps keyed by primary key, and the one session record of the requester. */
module Models {
  import opened Js
  import opened ApiResponse

  datatype User = User(id: int, name: string, username: string, password: string)
  datatype Blog = Blog(id: int, title: string, content: string, user_id: int, createdAt: int)
  datatype Comment = Comment(id: int, comment: string, blog_id: int, user_id: int, createdAt: int)

  /** `req.session`: who is signed in, if anyone. A destroyed session and a
      request without one both read as `Anonymous`. */
  datatype Session = Session(user_id: Option<int>, logged_in: bool)

  const Anonymous := Session(None, false)

  /** A `:id` path segment: a numeric segment names a primary key; any other
      word names none. */
  datatype PathParam = Key(n: int) | Word(s: string)

  /** Every table, the session, and the next auto-increment id of each table. */
  datatype World = World(
    users: map<int, User>,
    blogs: map<int, Blog>,
    comments: map<int, Comment>,
    session: Session,
    nextUserId: int,
    nextBlogId: int,
    nextCommentId: int)

  /** What a handler leaves behind: its reply and the new store and session. */
  datatype Step = Step(reply: Envelope, world: World)

  const Empty := World(map[], map[], map[], Anonymous, 1, 1, 1)

  predicate UniqueUsernames(users: map<int, User>) {
    forall i, j :: i in users && j in users && users[i].username == users[j].username ==> i == j
  }

  /** The store invariant: every row sits under its own id, ids come from the
      auto-increment counters, usernames are unique, and a signed-in session
      names an existing user. */
  predicate Valid(w: World) {
    && 1 <= w.nextUserId && 1 <= w.nextBlogId && 1 <= w.nextCommentId
    && (forall k :: k in w.users ==> 1 <= k < w.nextUserId && w.users[k].id == k)
    && (forall k :: k in w.blogs ==> 1 <= k < w.nextBlogId && w.blogs[k].id == k)
    && (forall k :: k in w.comments ==> 1 <= k < w.nextCommentId && w.comments[k].id == k)
    && UniqueUsernames(w.users)
    && (w.session.logged_in ==> w.session.user_id.Some? && w.session.user_id.value in w.users)
  }

  /** `Model.findByPk(id)` */
  function Lookup<T>(table: map<int, T>, id: PathParam): Option<T> {
    if id.Key? && id.n in table then Some(table[id.n]) else None
  }

  /** A user row as a plain object, password included. */
  function UserJs(u: User): Value {
    Obj(map["id" := Num(u.id), "name" := Str(u.name), "username" := Str(u.username),
            "password" := Str(u.password)])
  }

  /** A user row read with `attributes: { exclude: ['password'] }`. */
  function PublicUserJs(u: User): Value {
    Obj(map["id" := Num(u.id), "name" := Str(u.name), "username" := Str(u.username)])
  }

  function BlogJs(b: Blog): Value {
    Obj(map["id" := Num(b.id), "title" := Str(b.title), "content" := Str(b.content),
            "user_id" := Num(b.user_id), "createdAt" := Num(b.createdAt)])
  }

  function CommentJs(c: Comment): Value {
    Obj(map["id" := Num(c.id), "comment" := Str(c.comment), "blog_id" := Num(c.blog_id),
            "user_id" := Num(c.user_id), "createdAt" := Num(c.createdAt)])
  }

  /** `{ key: value }` */
  function Field(key: string, value: Value): Value {
    Obj(map[key := value])
  }
}
