/** What an Express router table says: for a method and a path pattern, the
    gates that run first and the handler that runs last. */
module Routing {
  import opened Js
  import opened Models

  datatype Verb = GET | POST | PUT | DELETE

  /** The part of the path below the router's mount point. */
  datatype Path = Root | Param(p: PathParam)

  /** `'/'`, `'/:id'`, or a literal segment such as `'/login'`. */
  datatype Pattern = RootPattern | IdPattern | Literal(segment: string)

  datatype Gate = WithAuth | RequireBlogOwner

  datatype Handler =
    | GetFeed | GetDetail | CreateBlog | UpdateBlog | DeleteBlog
    | CreateComment | DeleteComment
    | Signup | Login | Logout | Me

  datatype Route = Route(verb: Verb, pattern: Pattern, gates: seq<Gate>, handler: Handler)

  predicate PatternMatches(pattern: Pattern, path: Path) {
    match pattern
    case RootPattern => path.Root?
    case IdPattern => path.Param?
    case Literal(segment) => path == Param(Word(segment))
  }

  /** Express tries the routes in the order they were registered and takes
      the first whose method and pattern match. */
  function FindRoute(table: seq<Route>, verb: Verb, path: Path): (r: Option<Route>)
    ensures r.Some? ==> r.value in table && r.value.verb == verb && PatternMatches(r.value.pattern, path)
    ensures r.None? ==> forall route :: route in table ==> !(route.verb == verb && PatternMatches(route.pattern, path))
  {
    if |table| == 0 then None
    else if table[0].verb == verb && PatternMatches(table[0].pattern, path) then Some(table[0])
    else
      var rest := FindRoute(table[1..], verb, path);
      assert forall route :: route in table ==> route == table[0] || route in table[1..];
      rest
  }

  /** The route found is the first registered one that matches: every route
      before it fails on its method or its pattern. */
  lemma {:induction false} FindRouteIsFirstMatch(table: seq<Route>, verb: Verb, path: Path)
    requires FindRoute(table, verb, path).Some?
    ensures exists i :: (0 <= i < |table| && table[i] == FindRoute(table, verb, path).value
                         && forall j :: 0 <= j < i ==> !(table[j].verb == verb && PatternMatches(table[j].pattern, path)))
  {
    if !(table[0].verb == verb && PatternMatches(table[0].pattern, path)) {
      var rest := table[1..];
      FindRouteIsFirstMatch(rest, verb, path);
      var k :| 0 <= k < |rest| && rest[k] == FindRoute(rest, verb, path).value
        && (forall j :: 0 <= j < k ==> !(rest[j].verb == verb && PatternMatches(rest[j].pattern, path)));
      forall j | 0 <= j < k + 1
        ensures !(table[j].verb == verb && PatternMatches(table[j].pattern, path))
      {
        if j > 0 { assert table[j] == rest[j - 1]; }
      }
      assert table[k + 1] == FindRoute(table, verb, path).value;
    } else {
      assert table[0] == FindRoute(table, verb, path).value;
    }
  }
}

/** `/blogs`: reading is public; writing needs a signed-in user. The
    ownership gate is not on any route. */
module BlogRoutes {
  import opened Routing

  const Table: seq<Route> := [
    Route(GET, RootPattern, [], GetFeed),
    Route(GET, IdPattern, [], GetDetail),
    Route(POST, RootPattern, [WithAuth], CreateBlog),
    Route(PUT, IdPattern, [WithAuth], UpdateBlog),
    Route(DELETE, IdPattern, [WithAuth], DeleteBlog)
  ]
}

/** `/comments`: both routes need a signed-in user. */
module CommentRoutes {
  import opened Routing

  const Table: seq<Route> := [
    Route(POST, RootPattern, [WithAuth], CreateComment),
    Route(DELETE, IdPattern, [WithAuth], DeleteComment)
  ]
}

/** The user routes: only `me` is gated; `logout` checks the session itself. */
module UserRoutes {
  import opened Routing

  const Table: seq<Route> := [
    Route(POST, RootPattern, [], Signup),
    Route(POST, Literal("login"), [], Login),
    Route(POST, Literal("logout"), [], Logout),
    Route(GET, Literal("me"), [WithAuth], Me)
  ]
}
