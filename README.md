# Hack-A-Thought: request decisions and the reply contract

Hack-A-Thought is a small blogging application. An Express server keeps users, blogs and comments in a relational store, and it authenticates requests with a cookie session. A React client talks to it through one HTTP module. This project models two parts of it:

- The server's decision for every request: which route matches, which gates run, what each handler checks, which single write it performs, and which envelope it answers with.
- The client's decoding of those envelopes and of transport failures.

The store is a value `World`: a map per table keyed by primary key, the requester's session record (`user_id`, `logged_in`), and each table's next auto-increment id. Its invariant `Models.Valid` says four things:

- Every row sits under its own id.
- Ids come from the counters.
- Usernames are unique.
- A signed-in session names an existing user.

The modules follow the source files:

- `ApiResponse`: the `success` and `fail` envelopes and their JSON body.
- `ErrorHandler`: the `notFound` and `errorHandler` fallbacks.
- `AuthGate`: the `withAuth` gate.
- `BlogOwner`: the `requireBlogOwner` gate. It is a pure decision plus a `RequestContext` class whose method attaches `req.blog` and counts calls to `next()`.
- `BlogController`, `CommentController` and `AuthController`: each handler is a function from the store to a `Step`, meaning its reply and the new store.
- `Routing`, `BlogRoutes`, `CommentRoutes` and `UserRoutes`: the route tables, with Express's first-match rule.
- `App`: the three routers, the gates and the `notFound` fallback, assembled into `Dispatch`.
- `Server`: a `Store` class whose fields are the tables and the session. Its handler methods change them in place. Each method is proved to leave exactly the store and reply that the controller function describes, and `Serve` is proved equal to `Dispatch`.
- `AccessControl` and `Scenarios`: what the routes and handlers guarantee together. This covers which error wins, that a failed request changes nothing, and read-after-write sequences.
- `ApiClient`: `ApiError`, `getBaseUrl`, `unwrapResponse`, `toApiError` and `request`.
- `WireContract`: how a server reply travels through axios to the caller of `request`. The corrected `request` (`ApiClient.Request`) recovers exactly what the server said; `request` as written does so for every reply except a failure sent with a 2xx status.

Three things from outside become parameters: the clock that stamps `createdAt`, bcrypt's password comparison, and the error the User model throws for a taken username.

The `requireBlogOwner` gate is defined but is on no route (server/routes/blogRoutes.js:9-10). A signed-in non-owner who updates or deletes a blog therefore gets the controller's 404 NOT_FOUND, not the gate's 403 FORBIDDEN. `AccessControl.NonOwnerBlogWrite` proves both answers: the 404 through the routes, and the 403 the gate would give.

## Model

| member | source | states |
|---|---|---|
| ApiResponse.Succeed | server/utils/apiResponse.js:1-7 | a success envelope carries the data unchanged; the status defaults to 200 and is otherwise the one given |
| ApiResponse.Fail | server/utils/apiResponse.js:9-18 | a failure envelope carries status and message as passed; the code defaults to BAD_REQUEST |
| ApiResponse.Wire | server/utils/apiResponse.js:2-17 | the body is an object with `ok`; `ok` is true exactly for a success, which has `error: null`; a failure has `data: null` and `error: {message, code}` |
| ApiResponse.WireInjective | server/utils/apiResponse.js:2-17 | the two shapes are disjoint: the body and the status determine the envelope |
| ErrorHandler.NotFound | server/middleware/errorHandler.js:3-12 | always 404, "Not Found", NOT_FOUND |
| ErrorHandler.HandleError | server/middleware/errorHandler.js:14-29 | a failure whose status, message and code are the error's own where truthy, and otherwise 500, "Internal Server Error" and SERVER_ERROR |
| AuthGate.WithAuth | server/middleware/auth.js:1-14 | passes exactly the sessions with `logged_in`; otherwise halts with the 401 UNAUTHORIZED envelope that `fail` would build |
| BlogOwner.CheckBlogOwner | server/middleware/requireBlogOwner.js:5-22 | 401 without a session user, then 404 for an absent blog, then 403 for someone else's blog; it passes exactly when the signed-in user owns the blog, handing on its id and owner |
| BlogOwner.RequestContext.RequireBlogOwner | server/middleware/requireBlogOwner.js:5-28 | on success `req.blog` is set to the loaded row and `next()` is called once; on any failure neither happens and the gate's envelope is the reply |
| BlogController.FeedKeys | server/controllers/blogController.js:6-12 | every blog id exactly once, each before every id it precedes: newer `createdAt` first, equal timestamps by descending id |
| BlogController.Feed | server/controllers/blogController.js:6-12 | the feed lists every blog, only blogs, as many as there are, with `createdAt` non-increasing |
| BlogController.GetFeed | server/controllers/blogController.js:5-15 | always 200, with `blogs` being the feed |
| BlogController.GetDetail | server/controllers/blogController.js:17-34 | succeeds exactly when the id names a blog and returns that blog; otherwise 404 "Blog not found" |
| BlogController.CreateBlog | server/controllers/blogController.js:36-50 | a falsy title or content gives 400 VALIDATION_ERROR and no change; otherwise exactly one new row, with the next id, the given title and content and the session user as owner, which is also the reply |
| BlogController.UpdateBlog | server/controllers/blogController.js:52-65 | succeeds exactly on the session user's own blog when the body gives a title or a content; a given field replaces its column and an omitted one keeps it; an absent blog, a foreign blog and a body with neither field give the same 404 with nothing changed; no other row or table changes |
| BlogController.DeleteBlog | server/controllers/blogController.js:67-77 | removes exactly the session user's own blog with that id, and nothing else; otherwise the same 404 with nothing changed |
| CommentController.CreateComment | server/controllers/commentController.js:5-24 | a falsy comment or blog_id, then a non-integer blog_id, each give their 400 with no change; otherwise one new comment owned by the session user with the converted blog id |
| CommentController.DeleteComment | server/controllers/commentController.js:26-40 | 404 for an absent comment before 403 for someone else's; only the session user's own comment is removed, and nothing else changes |
| AuthController.StripPassword | server/controllers/authController.js:5-12 | drops `password` and keeps every other field with its value; a value that is not an object is returned as is |
| AuthController.StripPasswordOfUser | server/controllers/authController.js:5-12 | a stripped user row is exactly the row `me` reads with the password excluded |
| AuthController.FindByUsername | server/controllers/authController.js:35 | finds a user exactly when one has that username, and returns that one |
| AuthController.Signup | server/controllers/authController.js:20-32 | a taken username ends in the User model's error with nothing changed; otherwise one new user, the session signed in as that user, and the user returned without its password |
| AuthController.Login | server/controllers/authController.js:34-55 | succeeds exactly when a user has that username and the password checks; both failures give the identical 400 INVALID_CREDENTIALS and leave the session as it was; success signs in that user and returns it without password |
| AuthController.Logout | server/controllers/authController.js:57-64 | a session that is not signed in gets 401 "Not logged in" and stays; otherwise the session is destroyed and the reply is `{logged_out: true}` |
| AuthController.Me | server/controllers/authController.js:66-76 | the session's user without password when it exists, otherwise 404 "User not found" |
| Routing.FindRoute | server/routes/blogRoutes.js:5-10 | the route found is in the table and matches method and path; none is found only if no route matches |
| Routing.FindRouteIsFirstMatch | server/routes/blogRoutes.js:5-10 | the route found is the first registered one that matches: every route before it fails on method or pattern |
| App.TablesGuardWrites | server/routes/blogRoutes.js:8-10 | every route whose handler writes the session user is behind `withAuth`, and no route uses `requireBlogOwner` |
| App.RunGates | server/routes/blogRoutes.js:8-10 | a request passes a gate list containing `withAuth` only when signed in; a signed-out request stops at a leading `withAuth` with 401; a gate that stops a request answers with a failure |
| AccessControl.HandlerKeepsWorldOnFailure | server/controllers/blogController.js:36-77 | a handler that fails leaves store and session as they were, and every handler keeps the store invariant |
| AccessControl.DispatchKeepsWorld | server/server.js:46-54 | on all three routers and the `notFound` fallback, any failed request changes nothing, and every request keeps the store invariant |
| AccessControl.BlogRouteOf | server/routes/blogRoutes.js:5-10 | which of the five blog routes each method and path reaches |
| AccessControl.CommentRouteOf | server/routes/commentRoutes.js:5-6 | which comment route each method and path reaches, and that GET reaches none |
| AccessControl.UserRouteOf | server/routes/userRoutes.js:5-8 | which user route each method and path reaches |
| AccessControl.SignedInPasses | server/middleware/auth.js:13 | a signed-in request passes `withAuth` |
| AccessControl.SignedOutBlogWrite | server/routes/blogRoutes.js:8-10 | a signed-out POST, PUT or DELETE on `/blogs` gets 401 UNAUTHORIZED with nothing changed, whatever the body and whether or not the blog exists |
| AccessControl.SignedOutCommentWrite | server/routes/commentRoutes.js:5-6 | a signed-out comment create or delete gets 401, even with an invalid body or an absent comment |
| AccessControl.SignedOutAccount | server/routes/userRoutes.js:7-8 | signed out, GET `/me` is stopped by `withAuth`, while POST `/logout` reaches the handler and gets its "Not logged in" |
| AccessControl.PublicFeed | server/routes/blogRoutes.js:5 | GET `/blogs` reaches `getFeed` for anyone |
| AccessControl.PublicDetail | server/routes/blogRoutes.js:6 | GET `/blogs/:id` reaches `getDetail` for anyone |
| AccessControl.SignedInCreateBlog | server/routes/blogRoutes.js:8 | a signed-in POST `/blogs` reaches `createBlog` |
| AccessControl.SignedInUpdateBlog | server/routes/blogRoutes.js:9 | a signed-in PUT `/blogs/:id` reaches `updateBlog` |
| AccessControl.SignedInDeleteBlog | server/routes/blogRoutes.js:10 | a signed-in DELETE `/blogs/:id` reaches `deleteBlog` |
| AccessControl.SignedInMe | server/routes/userRoutes.js:8 | a signed-in GET `/me` reaches `me` |
| AccessControl.OpenAccountRoutes | server/routes/userRoutes.js:5-6 | signup and login reach their handlers with no gate |
| AccessControl.NonOwnerBlogWrite | server/routes/blogRoutes.js:9-10 | a signed-in non-owner's PUT or DELETE on an existing blog gets 404 NOT_FOUND with nothing changed, while `requireBlogOwner` would have said 403 |
| AccessControl.MissingBlogWrite | server/middleware/requireBlogOwner.js:14-18 | a write to an absent blog is NOT_FOUND, never FORBIDDEN, both through the routes and through the gate |
| AccessControl.OwnerBlogWrite | server/controllers/blogController.js:55-76 | the owner's DELETE succeeds, and the owner's PUT succeeds exactly when it gives a title or a content; the gate would pass them all |
| AccessControl.CommentDeleteOrder | server/controllers/commentController.js:27-35 | through the route, an absent comment is 404 and someone else's is 403 |
| AccessControl.UnknownRoute | server/middleware/errorHandler.js:3-12 | every request that no route of its router matches gets the `notFound` envelope, with nothing changed |
| AccessControl.UnmatchedRequests | server/routes/userRoutes.js:5-8 | GET `/login` matches no user route (it is a POST route) and GET matches no comment route, so `/login` by GET gets `notFound` |
| Scenarios.CreateThenRead | server/controllers/blogController.js:36-50 | a created blog reads back under its new id with the creator as owner, and it is in the feed |
| Scenarios.UpdateThenRead | server/controllers/blogController.js:52-65 | after the owner's update the blog reads back with the new title and content and everything else kept |
| Scenarios.DeleteThenRead | server/controllers/blogController.js:67-77 | after the owner's delete, reading is 404 and a second delete is the same 404 with nothing changed |
| Scenarios.SignupThenMe | server/controllers/authController.js:20-32 | a successful signup signs the user in: `me` returns the same reply |
| Scenarios.LoginThenMe | server/controllers/authController.js:46-54 | after a successful login `me` returns the same user |
| Scenarios.LogoutStep | server/controllers/authController.js:57-64 | a signed-in logout succeeds with `{logged_out: true}` and changes only the session, to anonymous |
| Scenarios.LogoutThenRefused | server/controllers/authController.js:57-64 | after logout, `me` and every blog write (create, update, delete) get 401 and a second logout gets "Not logged in" |
| Server.Store.CreateBlog | server/controllers/blogController.js:36-50 | the in-place insert leaves exactly the reply and store of `BlogController.CreateBlog` |
| Server.Store.UpdateBlog | server/controllers/blogController.js:52-65 | the in-place scoped update leaves exactly the reply and store of `BlogController.UpdateBlog` |
| Server.Store.DeleteBlog | server/controllers/blogController.js:67-77 | the in-place scoped destroy leaves exactly the reply and store of `BlogController.DeleteBlog` |
| Server.Store.CreateComment | server/controllers/commentController.js:5-24 | the in-place insert leaves exactly the reply and store of `CommentController.CreateComment` |
| Server.Store.DeleteComment | server/controllers/commentController.js:26-40 | the in-place destroy leaves exactly the reply and store of `CommentController.DeleteComment` |
| Server.Store.Signup | server/controllers/authController.js:20-32 | the insert and session update leave exactly the reply and state of `AuthController.Signup` |
| Server.Store.Login | server/controllers/authController.js:34-55 | the session update leaves exactly the reply and state of `AuthController.Login` |
| Server.Store.Logout | server/controllers/authController.js:57-64 | destroying the session leaves exactly the reply and state of `AuthController.Logout` |
| Server.Store.Serve | server/server.js:46-54 | on all three routers and the `notFound` fallback, one request changes the store exactly as `Dispatch` says, keeps the invariant, and changes nothing when it fails |
| ApiClient.NewApiError | client/src/api/client.js:13-19 | each option that is given and not nullish is kept; otherwise status 0, code "UNKNOWN", details null |
| ApiClient.StripTrailingSlashes | client/src/api/client.js:31 | the result is a prefix of the input with no trailing '/', and only slashes were removed |
| ApiClient.StripTrailingSlashesUnique | client/src/api/client.js:31 | those three properties determine the result |
| ApiClient.StripTrailingSlashesIdempotent | client/src/api/client.js:31 | stripping twice is stripping once |
| ApiClient.GetBaseUrl | client/src/api/client.js:22-32 | an unset or empty value is the "not defined" error; otherwise the value with its trailing slashes stripped |
| ApiClient.UnwrapResponse | client/src/api/client.js:49-67 | a payload outside the contract is returned as is; `ok` truthy returns `data`; otherwise an ApiError with the envelope's message and code (or "Request failed", "BAD_REQUEST"), the HTTP status (or 0) and the payload |
| ApiClient.ToApiError | client/src/api/client.js:72-105 | with a response: the ApiError its envelope decodes to, else HTTP_ERROR with that status, the status text (or "Request failed") and the body (or null) as details; without one: status 0, and TIMEOUT with the error's message (or null) as details for ECONNABORTED, else NETWORK_ERROR with the message, or else the error itself, as details |
| ApiClient.RequestAsWritten | client/src/api/client.js:115-127 | transport errors go through `toApiError`; a 2xx response outside the failure contract is returned as decoded; a 2xx failure envelope whose code is not ECONNABORTED comes out as NETWORK_ERROR with status 0 |
| ApiClient.Request | client/src/api/client.js:115-127 | the corrected `request`: transport errors go through `toApiError`; a 2xx response is decoded by `unwrapResponse` alone |
| ApiClient.RequestAgreesOutsideFailureEnvelopes | client/src/api/client.js:115-127 | as written and corrected agree on every transport error and every resolved response that is not a failure envelope |
| ApiClient.RequestAsWrittenMislabelsFailure | client/src/api/client.js:115-127 | a 200 reply carrying a failure envelope: as written a network error, corrected the envelope's own error |
| WireContract.Deliver | client/src/api/client.js:117-123 | axios resolves exactly the 2xx replies and rejects the rest with the response attached |
| WireContract.DecodedInjective | client/src/api/client.js:44-48 | two well-formed replies the caller cannot tell apart are the same reply |
| WireContract.ClientDecodesReply | client/src/api/client.js:49-67 | decoding inverts `success` and `fail`: a success gives its data, a failure an ApiError with its message, code, status and body, whichever way axios delivers it, through the corrected `request` (`ApiClient.Request`) |
| WireContract.AsWrittenDecodesErrorStatuses | client/src/api/client.js:115-127 | `request` as written decodes every well-formed reply correctly except a failure with a 2xx status |
| WireContract.HandlerRepliesWellFormed | server/utils/apiResponse.js:1-18 | every handler succeeds with 200 or fails with a message and a code |
| WireContract.DispatchWellFormed | server/server.js:46-54 | on all three routers, the gates and the `notFound` fallback, every reply the server gives succeeds with 200 or fails with a non-empty message and code |
| WireContract.ServerRepliesDecode | client/src/api/client.js:44-67 | every reply of the server, on every router, reaches the caller of the corrected `request` (`ApiClient.Request`) as exactly what it says |
| WireContract.TakenUsernameWithStatus200 | client/src/api/client.js:115-127 | a signup rejected by an error with status 200 reaches the caller as NETWORK_ERROR as written, and as its own message and code when corrected |

## Left out

- HTTP, Express and Sequelize plumbing are not modelled. A reply is the envelope together with its JSON body as a value; serialisation is taken as the identity.
- The `include` joins of `getFeed` and `getDetail` (author, comments) are left out. A blog is returned with its own columns only.
- `updatedAt` is not modelled, and `createdAt` is the `now` parameter.
- BlogController.FeedKeys: the store leaves the order of blogs with equal `createdAt` open; the model fixes it as descending id.
- The User model's hooks and validations are not part of this model: password hashing, and rejections other than a taken username. The stored password is the one given. The error for a taken username is the parameter `rejection`, and signup reads only `name`, `username` and `password` from the body.
- Password checking is the parameter `checkPassword`, standing for bcrypt's comparison.
- Session persistence and cookies are not modelled, nor the ordering of `req.session.save` callbacks or a failure of `session.destroy`. The session is one record updated at once.
- `Number()` and truthiness coercion of request fields are not modelled. `blog_id` is the datatype `BlogIdInput`, whose cases follow what `!blog_id` and `Number.isInteger(Number(blog_id))` decide, with 0 falsy. A `:id` path segment is a numeric key or a word that names no row.
- `asyncHandler` and `console.error` are not modelled; a thrown error is taken to reach `errorHandler`.
- ApiClient.ToApiError: the `catch` branch for an error that is not an ApiError is left out, because `unwrapResponse` throws nothing else here.
- ApiClient.NewApiError: `Error`'s conversion of the message to a string is not modelled; the message is kept as given.
- axios itself is not modelled: timeouts, headers, `statusText` contents, and the fields of an axios error other than `response`, `code` and `message`. `import.meta.env` is the parameter of `GetBaseUrl`.
- BlogController.UpdateBlog: a body with neither title nor content is the 404, because `Blog.update` with only `updatedAt` left to set runs no query and reports zero rows updated; that library behaviour is taken as given, since Sequelize is not part of this model.
- BlogController.DeleteBlog: what the database does to the blog's comments (a cascade or a set-null on `blog_id`) is a referential action of the model associations, which are not part of this model; the model leaves the comment table as it was.
- CommentController.CreateComment: whether the database refuses a `blog_id` that names no blog is a foreign-key constraint of the model definitions, which are not part of this model; the model inserts the comment.
- AuthController.Login: a body without `username` or `password` is not modelled. An absent username makes Sequelize reject the `where` clause, which `errorHandler` turns into a 500; an absent password makes bcrypt's comparison throw. The model takes both as strings.
- AuthController.Signup: likewise a body without `name`, `username` or `password` is not modelled; the User model's validation of such a body is not part of this model.
- The React pages and components, the thin per-resource client wrappers, and the server bootstrap are outside this model.

## Findings

| source | as written | input that shows it | evidently intended | confidence | as-written member | corrected member |
|---|---|---|---|---|---|---|
| client/src/api/client.js:115-127 | the `try` around `unwrapResponse(res)` also catches the ApiError that `unwrapResponse` throws for a failure envelope; `toApiError` finds no `response` on it and returns NETWORK_ERROR with status 0 | a 200 response whose body is `{ok:false, data:null, error:{message:"Taken", code:"CONFLICT"}}`, which `errorHandler` sends for an error whose `status` is 200 | the caller gets the envelope's ApiError (message "Taken", code "CONFLICT", status 200), as the doc comment of `unwrapResponse` says | medium, not executed; this server sends a failure with a 2xx status only when a thrown error carries one | ApiClient.RequestAsWritten, ApiClient.RequestAsWrittenMislabelsFailure, WireContract.TakenUsernameWithStatus200 | ApiClient.Request, WireContract.ClientDecodesReply |
