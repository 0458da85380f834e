/** The account handlers: signup, login, logout and the current user, over
    the user table and the session record. */
module AuthController {
  import opened Js
  import opened ApiResponse
  import opened Models
  import opened ErrorHandler

  const BAD_CREDENTIALS := "Incorrect username or password"

  /** `stripPassword`: drops the `password` key and keeps every other key;
      a falsy value and a value that is not an object come back as they are. */
  function StripPassword(v: Value): (r: Value)
    ensures !v.Obj? ==> r == v
    ensures v.Obj? ==> r.Obj? && r.fields.Keys == v.fields.Keys - {"password"}
    ensures v.Obj? ==> forall k :: k in r.fields ==> r.fields[k] == v.fields[k]
  {
    if v.Obj? && "password" in v.fields then Obj(v.fields - {"password"}) else v
  }

  /** What signup and login send back for a user is exactly what `me` sends:
      the row without its password. */
  lemma StripPasswordOfUser(u: User)
    ensures StripPassword(UserJs(u)) == PublicUserJs(u)
  {
    var stripped := StripPassword(UserJs(u)).fields;
    assert stripped.Keys == PublicUserJs(u).fields.Keys;
    assert forall k :: k in stripped ==> stripped[k] == PublicUserJs(u).fields[k];
  }

  predicate UsernameTaken(users: map<int, User>, username: string) {
    exists k :: k in users && users[k].username == username
  }

  /** `User.findOne({ where: { username } })`, with usernames unique. */
  function FindByUsername(users: map<int, User>, username: string): (r: Option<User>)
    requires UniqueUsernames(users)
    ensures r.Some? <==> UsernameTaken(users, username)
    ensures r.Some? ==> exists k :: k in users && users[k] == r.value && r.value.username == username
  {
    if UsernameTaken(users, username) then
      var k :| k in users && users[k].username == username;
      Some(users[k])
    else None
  }

  /** `signup`: inserts the user and signs them in. The unique constraint on
      `username` lives in the User model; the error it throws, which
      `errorHandler` turns into the reply, is the parameter `rejection`. */
  function Signup(w: World, name: string, username: string, password: string,
                  rejection: ServerError): (s: Step)
    ensures UsernameTaken(w.users, username) ==> s == Step(HandleError(rejection), w)
    ensures s.reply.Success? <==> !UsernameTaken(w.users, username)
    ensures s.reply.Success? ==>
      var u := User(w.nextUserId, name, username, password);
      && s.reply == Success(200, Field("user", PublicUserJs(u)))
      && s.world == w.(users := w.users[u.id := u], session := Session(Some(u.id), true),
                       nextUserId := w.nextUserId + 1)
  {
    if UsernameTaken(w.users, username) then Step(HandleError(rejection), w)
    else
      var u := User(w.nextUserId, name, username, password);
      StripPasswordOfUser(u);
      Step(Succeed(Field("user", StripPassword(UserJs(u))), Some(200)),
           w.(users := w.users[u.id := u], session := Session(Some(u.id), true),
              nextUserId := w.nextUserId + 1))
  }

  /** `login`: an unknown username and a wrong password give the same reply
      and leave the session as it was. `checkPassword` is the bcrypt
      comparison of the User model. */
  function Login(w: World, username: string, password: string,
                 checkPassword: (User, string) -> bool): (s: Step)
    requires UniqueUsernames(w.users)
    ensures s.reply.Success? <==>
      exists k :: k in w.users && w.users[k].username == username && checkPassword(w.users[k], password)
    ensures s.reply.Failure? ==> s == Step(Failure(400, BAD_CREDENTIALS, INVALID_CREDENTIALS), w)
    ensures s.reply.Success? ==>
      exists k :: k in w.users && w.users[k].username == username
        && s.reply == Success(200, Field("user", PublicUserJs(w.users[k])))
        && s.world == w.(session := Session(Some(w.users[k].id), true))
  {
    match FindByUsername(w.users, username)
    case None => Step(Fail(400, BAD_CREDENTIALS, Some(INVALID_CREDENTIALS)), w)
    case Some(u) =>
      if !checkPassword(u, password) then
        Step(Fail(400, BAD_CREDENTIALS, Some(INVALID_CREDENTIALS)), w)
      else
        StripPasswordOfUser(u);
        Step(Succeed(Field("user", StripPassword(UserJs(u))), Some(200)),
             w.(session := Session(Some(u.id), true)))
  }

  /** `logout`: refuses a session that is not signed in, and otherwise
      destroys it before answering. */
  function Logout(w: World): (s: Step)
    ensures !w.session.logged_in ==> s == Step(Failure(401, "Not logged in", UNAUTHORIZED), w)
    ensures w.session.logged_in ==>
      s == Step(Success(200, Field("logged_out", Bool(true))), w.(session := Anonymous))
  {
    if !w.session.logged_in then Step(Fail(401, "Not logged in", Some(UNAUTHORIZED)), w)
    else Step(Succeed(Field("logged_out", Bool(true)), Some(200)), w.(session := Anonymous))
  }

  /** `me`: the session's user without its password, or 404. */
  function Me(w: World): (r: Envelope)
    ensures r.Success? <==> w.session.user_id.Some? && w.session.user_id.value in w.users
    ensures r.Success? ==> r == Success(200, Field("user", PublicUserJs(w.users[w.session.user_id.value])))
    ensures r.Failure? ==> r == Failure(404, "User not found", NOT_FOUND)
  {
    if w.session.user_id.Some? && w.session.user_id.value in w.users then
      Succeed(Field("user", PublicUserJs(w.users[w.session.user_id.value])), None)
    else
      Fail(404, "User not found", Some(NOT_FOUND))
  }
}
